/**
 What the payment protocol guarantees over every run: rows only move forward, and, while the guard
 keeps its rows, one key is one payment.
 */
module PaymentSafety {
  import opened Options
  import opened Records
  import Guard
  import Adapter
  import TxnStore
  import opened Payment
  import opened PaymentOwnership
  import opened PaymentFrames

  // ---------------------------------------------------------------- rows move forward

  /** The moves a row may make. */
  predicate Edge(a: TxnState, b: TxnState) {
    (a.INITIATED? && (b.PROCESSING? || b.FAILED?)) || (a.PROCESSING? && (b.SUCCESS? || b.FAILED?))
  }

  predicate RowMoves(a: TxnStore.Row, b: TxnStore.Row) {
    b == a || (Edge(a.state, b.state) && b.key == a.key && b.amount == a.amount)
  }

  ghost predicate RowsMove(s: System, s': System) {
    forall id :: id in s.txns ==> id in s'.txns && RowMoves(s.txns[id], s'.txns[id])
  }

  lemma UpdatesMoveRows(s: System, r: nat, c: TxnStore.Change, fate: Fate, next: Pc, err: Pc)
    requires r in s.reqs && s.reqs[r].txn.Some? && s.reqs[r].txn.value in s.txns
    requires Edge(RowOf(s, r).state, c.state)
    ensures RowsMove(s, UpdateOwn(s, r, c, fate, next, err))
  {
  }

  lemma FailRouteMovesRows(s: System, r: nat, fate: Fate)
    requires Owned(s)
    ensures RowsMove(s, AfterFailRoute(s, r, fate))
  {
    if r in s.reqs && s.reqs[r].pc.FailingRoute? {
      assert RequestSound(s, r);
      var pc := s.reqs[r].pc;
      UpdatesMoveRows(s, r, TxnStore.Change(FAILED, None, Some(pc.error), None), fate,
                      Finished(HttpError(pc.code)), Finished(HttpError(500)));
    }
  }

  lemma MarkMovesRows(s: System, r: nat, fate: Fate)
    requires Owned(s)
    ensures RowsMove(s, AfterMark(s, r, fate))
  {
    if AtPc(s, r, Marking) {
      assert RequestSound(s, r);
      UpdatesMoveRows(s, r, TxnStore.Change(PROCESSING, None, None, Some(s.reqs[r].route.value.bankCode)), fate,
                      Calling, Finished(HttpError(500)));
    }
  }

  lemma FailureMovesRows(s: System, s': System, r: nat, error: string)
    requires Owned(s) && MarksFailed(s, s', r, error)
    ensures RowsMove(s, s')
  {
    assert RequestSound(s, r);
  }

  lemma FailCallMovesRows(s: System, r: nat, error: string, fate: Fate)
    requires Owned(s)
    ensures RowsMove(s, AfterFailCall(s, r, error, fate))
  {
    if r in s.reqs && s.reqs[r].pc.FailingCall? && s.reqs[r].txn.Some? {
      FailCallMarksFailed(s, r, error, fate);
      FailureMovesRows(s, AfterFailCall(s, r, error, fate), r,
                       if s.reqs[r].pc.kind.AsyncTimeout? then "bank timeout" else error);
    }
  }

  lemma FinalWriteMovesRows(s: System, s': System, r: nat, reply: Adapter.Response, pc: Pc, mail: Mail)
    requires Owned(s) && WritesFinal(s, s', r, reply, pc, mail)
    ensures RowsMove(s, s')
  {
    assert RequestSound(s, r);
  }

  lemma FinaliseMovesRows(s: System, r: nat, fate: Fate)
    requires Owned(s)
    ensures RowsMove(s, AfterFinalise(s, r, fate))
  {
    var s' := AfterFinalise(s, r, fate);
    if r in s.reqs && s.reqs[r].pc.Finalising? && s.reqs[r].txn.Some? {
      if fate.Refused? {
        FinaliseRefused(s, r);
      } else {
        FinaliseWritesFinal(s, r, fate);
        FinalWriteMovesRows(s, s', r, s.reqs[r].pc.reply, s'.reqs[r].pc, s'.reqs[r].mail);
      }
    }
  }

  lemma WriteTxnMovesRows(s: System, r: nat, id: Id, fate: Fate)
    ensures RowsMove(s, AfterWriteTxn(s, r, id, fate))
  {
  }

  lemma SameRowsMove(s: System, s': System)
    requires SameRows(s, s')
    ensures RowsMove(s, s')
  {
  }

  lemma IntakeMovesRows(ttlHours: nat, s: System, e: Event)
    requires Owned(s) && IsIntake(e)
    ensures RowsMove(s, EarlyStep(ttlHours, s, e))
  {
    EarlyTableFrame(ttlHours, s, e);
    SameRowsMove(s, EarlyStep(ttlHours, s, e));
  }

  lemma ResolveMovesRows(s: System, r: nat, result: RouteResult)
    ensures RowsMove(s, AfterResolve(s, r, result))
  {
    ResolveFrame(s, r, result);
  }

  lemma RoutingMovesRows(ttlHours: nat, s: System, e: Event)
    requires Owned(s) && IsEarly(e) && !IsIntake(e)
    ensures RowsMove(s, EarlyStep(ttlHours, s, e))
  {
    match e
    case WriteTxn(r, id, fate) => WriteTxnMovesRows(s, r, id, fate);
    case Resolve(r, result) => ResolveMovesRows(s, r, result);
    case FailRoute(r, fate) => FailRouteMovesRows(s, r, fate);
    case Mark(r, fate) => MarkMovesRows(s, r, fate);
  }

  lemma EarlyMovesRows(ttlHours: nat, s: System, e: Event)
    requires Owned(s) && IsEarly(e)
    ensures RowsMove(s, EarlyStep(ttlHours, s, e))
  {
    if IsIntake(e) {
      IntakeMovesRows(ttlHours, s, e);
    } else {
      RoutingMovesRows(ttlHours, s, e);
    }
  }

  lemma LateMovesRows(ttlHours: nat, s: System, e: Event)
    requires Owned(s) && !IsEarly(e)
    ensures RowsMove(s, LateStep(ttlHours, s, e))
  {
    if e.FailCall? {
      FailCallMovesRows(s, e.r, e.error, e.fate);
    } else if e.Finalise? {
      FinaliseMovesRows(s, e.r, e.fate);
    } else {
      LateTableFrame(ttlHours, s, e);
    }
  }

  lemma NextMovesRows(ttlHours: nat, s: System, e: Event)
    requires Owned(s)
    ensures RowsMove(s, Next(ttlHours, s, e))
  {
    if IsEarly(e) {
      EarlyMovesRows(ttlHours, s, e);
    } else {
      LateMovesRows(ttlHours, s, e);
    }
  }

  /** Where a row can get to from `a`. */
  predicate NotBefore(a: TxnStore.Row, b: TxnStore.Row) {
    || b == a
    || (&& b.key == a.key && b.amount == a.amount
        && (|| (a.state.INITIATED? && !b.state.INITIATED?)
            || (a.state.PROCESSING? && (b.state.SUCCESS? || b.state.FAILED?))))
  }

  /** In every interleaving, though update_state is unconditional, a row only ever moves from
      INITIATED to PROCESSING or FAILED and from PROCESSING to SUCCESS or FAILED, one such move a
      step, and a SUCCESS or FAILED row never changes again in any column. */
  lemma RowsStepForward(ttlHours: nat, es: seq<Event>, i: nat, id: Id)
    requires i < |es| && id in Run(ttlHours, es[..i]).txns
    ensures id in Run(ttlHours, es[..i + 1]).txns
    ensures RowMoves(Run(ttlHours, es[..i]).txns[id], Run(ttlHours, es[..i + 1]).txns[id])
  {
    assert es[..i + 1][..i] == es[..i];
    AlwaysOwned(ttlHours, es[..i]);
    NextMovesRows(ttlHours, Run(ttlHours, es[..i]), es[i]);
  }

  lemma {:induction false} RowsNeverGoBack(ttlHours: nat, es: seq<Event>, i: nat, j: nat, id: Id)
    requires i <= j <= |es| && id in Run(ttlHours, es[..i]).txns
    ensures id in Run(ttlHours, es[..j]).txns
    ensures NotBefore(Run(ttlHours, es[..i]).txns[id], Run(ttlHours, es[..j]).txns[id])
    decreases j
  {
    if i < j {
      RowsNeverGoBack(ttlHours, es, i, j - 1, id);
      RowsStepForward(ttlHours, es, j - 1, id);
    }
  }

  /** A PROCESSING or SUCCESS row carries the bank code its request was routed to; a SUCCESS row's
      one adapter call answered SUCCESS, with the reference the row shows. */
  lemma RowsTellTheTruth(ttlHours: nat, es: seq<Event>, id: Id)
    requires id in Run(ttlHours, es).txns
    ensures var s := Run(ttlHours, es);
            && id in s.writers && s.writers[id] in s.reqs
            && (var r, row := s.writers[id], s.txns[id];
                && s.reqs[r].txn == Some(id) && row.key == Some(s.reqs[r].key) && row.amount == Some(s.reqs[r].amount)
                && (row.state.PROCESSING? || row.state.SUCCESS? ==>
                      s.reqs[r].route.Some? && row.bankCode == Some(s.reqs[r].route.value.bankCode))
                && (row.state.SUCCESS? ==>
                      && r in s.jobs && s.jobs[r].Ended? && s.jobs[r].reply.Some?
                      && s.jobs[r].reply.value.status.SUCCESS? && row.bankRrn == s.jobs[r].reply.value.reference))
  {
    AlwaysOwned(ttlHours, es);
    var s := Run(ttlHours, es);
    assert RequestSound(s, s.writers[id]);
  }

  /** An error other than 500 that ends a request which had written its row is the truth for good:
      the row is FAILED, then and at any later point. */
  lemma ErrorsAreFinal(ttlHours: nat, es: seq<Event>, i: nat, j: nat, r: nat, code: int, id: Id)
    requires i <= j <= |es| && code != 500
    requires AtPc(Run(ttlHours, es[..i]), r, Finished(HttpError(code)))
    requires Run(ttlHours, es[..i]).reqs[r].txn == Some(id)
    ensures id in Run(ttlHours, es[..j]).txns && Run(ttlHours, es[..j]).txns[id].state.FAILED?
  {
    AlwaysOwned(ttlHours, es[..i]);
    assert RequestSound(Run(ttlHours, es[..i]), r);
    RowsNeverGoBack(ttlHours, es, i, j, id);
  }

  /** A row is left INITIATED or PROCESSING only by a request that answered 500 or was cancelled. */
  lemma UnfinishedRowsExplained(ttlHours: nat, es: seq<Event>, id: Id)
    requires var s := Run(ttlHours, es);
             && id in s.txns && (s.txns[id].state.INITIATED? || s.txns[id].state.PROCESSING?)
             && id in s.writers && s.writers[id] in s.reqs && s.reqs[s.writers[id]].pc.Finished?
    ensures var s := Run(ttlHours, es);
            s.reqs[s.writers[id]].pc == Finished(HttpError(500)) || s.reqs[s.writers[id]].pc == Finished(Cancelled)
  {
    AlwaysOwned(ttlHours, es);
    UnfinishedRowsIn(Run(ttlHours, es), id);
  }

  lemma UnfinishedRowsIn(s: System, id: Id)
    requires Owned(s) && id in s.txns && (s.txns[id].state.INITIATED? || s.txns[id].state.PROCESSING?)
    requires id in s.writers && s.writers[id] in s.reqs && s.reqs[s.writers[id]].pc.Finished?
    ensures s.reqs[s.writers[id]].pc == Finished(HttpError(500)) || s.reqs[s.writers[id]].pc == Finished(Cancelled)
  {
    assert RequestSound(s, s.writers[id]);
  }

  // ---------------------------------------------------------------- calls and POSTs

  /** The log of sends: one entry per request with a job, under that request's key and row. */
  ghost predicate CallsSound(s: System) {
    && (forall i :: 0 <= i < |s.calls| ==>
          && s.calls[i].request in s.jobs && s.calls[i].request in s.reqs
          && s.reqs[s.calls[i].request].txn == Some(s.calls[i].txn)
          && s.reqs[s.calls[i].request].key == s.calls[i].key)
    && (forall i, j :: 0 <= i < j < |s.calls| ==> s.calls[i].request != s.calls[j].request)
  }

  lemma PersistenceKeepsCalls(s: System, s': System)
    requires CallsSound(s) && Persists(s, s') && s'.calls == s.calls
    ensures CallsSound(s')
  {
  }

  lemma SendKeepsCalls(s: System, r: nat)
    requires Owned(s) && CallsSound(s)
    ensures CallsSound(AfterSend(s, r))
  {
    if AtPc(s, r, Calling) {
      assert RequestSound(s, r);
      assert r !in s.jobs;
    }
  }

  lemma NextKeepsCalls(ttlHours: nat, s: System, e: Event)
    requires Owned(s) && CallsSound(s)
    ensures CallsSound(Next(ttlHours, s, e))
  {
    if IsEarly(e) {
      EarlyFrame(ttlHours, s, e);
      PersistenceKeepsCalls(s, EarlyStep(ttlHours, s, e));
    } else if e.Send? {
      SendKeepsCalls(s, e.r);
    } else {
      LateFrame(ttlHours, s, e);
      PersistenceKeepsCalls(s, LateStep(ttlHours, s, e));
    }
  }

  /** r's POSTs, in the order it issued them. */
  function PostsOf(posts: seq<Post>, r: nat): seq<Post> {
    if posts == [] then []
    else
      var last := posts[|posts| - 1];
      PostsOf(posts[..|posts| - 1], r) + if last.request == r then [last] else []
  }

  predicate Accepted(p: Post) {
    Adapter.Accepted(p.bank)
  }

  /** The breaker was told of this POST, and raised. */
  predicate Raised(p: Post) {
    p.rejected && !p.bank.BadJson? && !p.bank.OtherFailure?
  }

  /** The bank accepted, the response could be built, and the breaker did not raise. */
  predicate LetThrough(p: Post) {
    Adapter.Usable(p.bank) && !p.rejected
  }

  /** What a send replies when this POST of it was let through. */
  function Accepting(p: Post): Adapter.Response
    requires LetThrough(p)
  {
    match p.url
    case PRIMARY_URL =>
      Adapter.Response(Adapter.SUCCESS, Adapter.ReferenceOf(p.bank), Adapter.PRIMARY, 1, Adapter.NoCode)
    case FALLBACK_URL =>
      Adapter.Response(Adapter.SUCCESS, Adapter.ReferenceOf(p.bank), Adapter.FALLBACK, 2, Adapter.NoCode)
  }

  function Urls(ps: seq<Post>): seq<Adapter.Endpoint> {
    seq(|ps|, i requires 0 <= i < |ps| => ps[i].url)
  }

  /** A job stands where these POSTs of it have brought it, and once over has answered as they call for. */
  predicate JobFits(job: Job, ps: seq<Post>) {
    match job
    case Started => ps == []
    case PrimaryFailed =>
      |ps| == 1 && ps[0].url.PRIMARY_URL? && !Raised(ps[0]) && Adapter.Retryable(ps[0].bank)
    case Ended(reply) =>
      && 1 <= |ps| <= 2
      && (var first, last := ps[0], ps[|ps| - 1];
          Adapter.Answers(first.bank, Raised(first), last.bank, Raised(last), Adapter.Sent(reply, Urls(ps))))
  }

  ghost predicate Fits(s: System, r: nat)
    requires r in s.jobs
  {
    JobFits(s.jobs[r], PostsOf(s.posts, r))
  }

  ghost predicate PostsSound(s: System) {
    && (forall i :: 0 <= i < |s.posts| ==> s.posts[i].request in s.jobs)
    && (forall r :: r in s.jobs ==> Fits(s, r))
  }

  lemma PostsSnoc(posts: seq<Post>, p: Post, r: nat)
    ensures PostsOf(posts + [p], r) == PostsOf(posts, r) + if p.request == r then [p] else []
  {
    assert (posts + [p])[..|posts + [p]| - 1] == posts;
  }

  lemma {:induction false} NoPostsBeforeJob(posts: seq<Post>, r: nat)
    requires forall i :: 0 <= i < |posts| ==> posts[i].request != r
    ensures PostsOf(posts, r) == []
  {
    if posts != [] {
      NoPostsBeforeJob(posts[..|posts| - 1], r);
    }
  }

  lemma {:induction false} PostsOfExactly(posts: seq<Post>, r: nat, p: Post)
    ensures p in PostsOf(posts, r) <==> p in posts && p.request == r
  {
    if posts != [] {
      var n := |posts| - 1;
      PostsOfExactly(posts[..n], r, p);
      assert posts == posts[..n] + [posts[n]];
    }
  }

  /** One more POST by r's job; the others' are the same. */
  lemma PostKeepsFits(s: System, s': System, r: nat, p: Post, q: nat)
    requires r in s.jobs && p.request == r && q in s'.jobs
    requires r in s'.jobs && s'.jobs == s.jobs[r := s'.jobs[r]] && s'.posts == s.posts + [p]
    requires q != r ==> Fits(s, q)
    requires JobFits(s'.jobs[r], PostsOf(s.posts, r) + [p])
    ensures Fits(s', q)
  {
    PostsSnoc(s.posts, p, q);
    if q != r {
      assert PostsOf(s'.posts, q) == PostsOf(s.posts, q) && s'.jobs[q] == s.jobs[q];
    }
  }

  lemma PostKeepsPosts(s: System, s': System, r: nat, p: Post)
    requires PostsSound(s) && r in s.jobs && p.request == r
    requires r in s'.jobs && s'.jobs == s.jobs[r := s'.jobs[r]] && s'.posts == s.posts + [p]
    requires JobFits(s'.jobs[r], PostsOf(s.posts, r) + [p])
    ensures PostsSound(s')
  {
    forall q | q in s'.jobs ensures Fits(s', q) {
      PostKeepsFits(s, s', r, p, q);
    }
  }

  lemma PrimaryJobFits(p: Post)
    requires p.url.PRIMARY_URL?
    ensures JobFits(JobAfterPrimary(p.bank, p.rejected), [p])
  {
    Adapter.SendAnswers(p.bank, Raised(p), p.bank, Raised(p));
    assert Urls([p]) == [Adapter.PRIMARY_URL];
  }

  lemma FallbackJobFits(p: Post, f: Post)
    requires p.url.PRIMARY_URL? && !Raised(p) && Adapter.Retryable(p.bank) && f.url.FALLBACK_URL?
    ensures JobFits(Ended(Some(Adapter.AfterFallback(Adapter.PostEnd(f.bank, f.rejected)))), [p, f])
  {
    Adapter.SendAnswers(p.bank, Raised(p), f.bank, Raised(f));
    assert Urls([p, f]) == [Adapter.PRIMARY_URL, Adapter.FALLBACK_URL];
  }

  lemma PrimaryPostKeepsPosts(s: System, r: nat, bank: Adapter.PostResult, rejected: bool)
    requires PostsSound(s)
    ensures PostsSound(AfterPrimaryPost(s, r, bank, rejected))
  {
    if r in s.jobs && s.jobs[r].Started? {
      var p := Post(r, Adapter.PRIMARY_URL, bank, rejected);
      PrimaryJobFits(p);
      assert PostsOf(s.posts, r) + [p] == [p];
      PostKeepsPosts(s, AfterPrimaryPost(s, r, bank, rejected), r, p);
    }
  }

  lemma FallbackPostKeepsPosts(s: System, r: nat, bank: Adapter.PostResult, rejected: bool)
    requires PostsSound(s)
    ensures PostsSound(AfterFallbackPost(s, r, bank, rejected))
  {
    if r in s.jobs && s.jobs[r].PrimaryFailed? {
      var p, f := PostsOf(s.posts, r)[0], Post(r, Adapter.FALLBACK_URL, bank, rejected);
      FallbackJobFits(p, f);
      assert PostsOf(s.posts, r) + [f] == [p, f];
      PostKeepsPosts(s, AfterFallbackPost(s, r, bank, rejected), r, f);
    }
  }

  lemma SendKeepsPosts(s: System, r: nat)
    requires Owned(s) && PostsSound(s)
    ensures PostsSound(AfterSend(s, r))
  {
    if AtPc(s, r, Calling) && s.reqs[r].txn.Some? {
      assert RequestSound(s, r);
      NoPostsBeforeJob(s.posts, r);
    }
  }

  lemma SamePostsSound(s: System, s': System)
    requires PostsSound(s) && s'.posts == s.posts && s'.jobs == s.jobs
    ensures PostsSound(s')
  {
  }

  lemma NextKeepsPosts(ttlHours: nat, s: System, e: Event)
    requires Owned(s) && PostsSound(s)
    ensures PostsSound(Next(ttlHours, s, e))
  {
    if IsEarly(e) {
      EarlyFrame(ttlHours, s, e);
      SamePostsSound(s, EarlyStep(ttlHours, s, e));
    } else if e.Send? {
      SendKeepsPosts(s, e.r);
    } else if e.PrimaryPost? {
      PrimaryPostKeepsPosts(s, e.r, e.bank, e.rejected);
    } else if e.FallbackPost? {
      FallbackPostKeepsPosts(s, e.r, e.bank, e.rejected);
    } else {
      LateFrame(ttlHours, s, e);
      SamePostsSound(s, LateStep(ttlHours, s, e));
    }
  }

  lemma {:induction false} AlwaysCallsAndPostsSound(ttlHours: nat, es: seq<Event>)
    ensures CallsSound(Run(ttlHours, es)) && PostsSound(Run(ttlHours, es))
  {
    if es != [] {
      var n := |es| - 1;
      AlwaysOwned(ttlHours, es[..n]);
      AlwaysCallsAndPostsSound(ttlHours, es[..n]);
      NextKeepsCalls(ttlHours, Run(ttlHours, es[..n]), es[n]);
      NextKeepsPosts(ttlHours, Run(ttlHours, es[..n]), es[n]);
    }
  }

  /** A POST of r was accepted, could be answered and was not raised for. */
  ghost predicate SomeLetThrough(s: System, r: nat) {
    exists i :: 0 <= i < |s.posts| && s.posts[i].request == r && LetThrough(s.posts[i])
  }

  /** In every run a send has issued no POST, a primary, or a primary and then a fallback, the latter
      exactly when the primary's result is one a fallback is tried for and the breaker did not raise
      for it: after a 5xx, a timeout or a failed connection the send is not over.  A send that replied
      says SUCCESS exactly when a POST of it was let through, and from the moment one was, its reply
      is that POST's, with its reference and its endpoint. */
  lemma RepliesTellThePosts(ttlHours: nat, es: seq<Event>, r: nat)
    requires r in Run(ttlHours, es).jobs
    ensures var s := Run(ttlHours, es);
            var job, ps := s.jobs[r], PostsOf(s.posts, r);
            && (ps == [] <==> job.Started?)
            && (ps != [] ==> ps[0].url.PRIMARY_URL?)
            && (|ps| >= 2 ==>
                  |ps| == 2 && ps[1].url.FALLBACK_URL? && !Raised(ps[0]) && Adapter.Retryable(ps[0].bank))
            && (|ps| == 1 ==> (job.PrimaryFailed? <==> !Raised(ps[0]) && Adapter.Retryable(ps[0].bank)))
            && (|ps| == 1 && !ps[0].rejected && Adapter.BankDown(ps[0].bank) ==> job.PrimaryFailed?)
            && (job.Ended? && job.reply.Some? ==>
                  && job.reply.value.attempts == |ps|
                  && (job.reply.value.status.SUCCESS? <==> SomeLetThrough(s, r)))
            && (forall i :: 0 <= i < |s.posts| && s.posts[i].request == r && LetThrough(s.posts[i]) ==>
                  job == Ended(Some(Accepting(s.posts[i]))))
  {
    AlwaysCallsAndPostsSound(ttlHours, es);
    var s := Run(ttlHours, es);
    JobFitsExactly(s.jobs[r], PostsOf(s.posts, r));
    LetThroughReplies(s, r);
  }

  lemma JobFitsExactly(job: Job, ps: seq<Post>)
    requires JobFits(job, ps)
    ensures (ps == [] <==> job.Started?) && |ps| <= 2
    ensures ps != [] ==> ps[0].url.PRIMARY_URL?
    ensures |ps| == 2 ==> ps[1].url.FALLBACK_URL? && !Raised(ps[0]) && Adapter.Retryable(ps[0].bank)
    ensures |ps| == 1 ==> (job.PrimaryFailed? <==> !Raised(ps[0]) && Adapter.Retryable(ps[0].bank))
    ensures job.Ended? && job.reply.Some? ==> job.reply.value.attempts == |ps|
  {
    if job.Ended? {
      assert Urls(ps)[0] == ps[0].url;
      assert |ps| == 2 ==> Urls(ps)[1] == ps[1].url;
    }
  }

  lemma JobRepliesExactly(job: Job, ps: seq<Post>)
    requires JobFits(job, ps)
    ensures job.Ended? && job.reply.Some? && job.reply.value.status.SUCCESS? <==> exists p :: p in ps && LetThrough(p)
    ensures forall p :: p in ps && LetThrough(p) ==> job == Ended(Some(Accepting(p)))
  {
    JobFitsExactly(job, ps);
    if job.Ended? && job.reply.Some? && job.reply.value.status.SUCCESS? {
      assert LetThrough(ps[0]) || LetThrough(ps[|ps| - 1]);
    }
  }

  lemma LetThroughReplies(s: System, r: nat)
    requires PostsSound(s) && r in s.jobs
    ensures var job := s.jobs[r];
            && (job.Ended? && job.reply.Some? && job.reply.value.status.SUCCESS? <==> SomeLetThrough(s, r))
            && (forall i :: 0 <= i < |s.posts| && s.posts[i].request == r && LetThrough(s.posts[i]) ==>
                  job == Ended(Some(Accepting(s.posts[i]))))
  {
    var ps := PostsOf(s.posts, r);
    JobRepliesExactly(s.jobs[r], ps);
    forall i | 0 <= i < |s.posts| && s.posts[i].request == r && LetThrough(s.posts[i])
      ensures s.jobs[r] == Ended(Some(Accepting(s.posts[i])))
    {
      PostsOfExactly(s.posts, r, s.posts[i]);
    }
    if p :| p in ps && LetThrough(p) {
      PostsOfExactly(s.posts, r, p);
    }
  }

  /** A SUCCESS row means that the bank accepted a POST of its request, and it shows that POST's
      reference. */
  lemma SuccessWasAcceptedByBank(ttlHours: nat, es: seq<Event>, id: Id)
    requires id in Run(ttlHours, es).txns && Run(ttlHours, es).txns[id].state.SUCCESS?
    ensures var s := Run(ttlHours, es);
            id in s.writers &&
            exists i :: 0 <= i < |s.posts| && s.posts[i].request == s.writers[id] && LetThrough(s.posts[i])
                        && s.txns[id].bankRrn == Adapter.ReferenceOf(s.posts[i].bank)
  {
    var s := Run(ttlHours, es);
    RowsTellTheTruth(ttlHours, es, id);
    AlwaysCallsAndPostsSound(ttlHours, es);
    LetThroughReplies(s, s.writers[id]);
    var i :| 0 <= i < |s.posts| && s.posts[i].request == s.writers[id] && LetThrough(s.posts[i]);
    assert s.jobs[s.writers[id]] == Ended(Some(Accepting(s.posts[i])));
  }

  // ---------------------------------------------------------------- one key, one payment

  predicate NoDelete(es: seq<Event>) {
    forall i :: 0 <= i < |es| ==> !(es[i].GuardStep? && es[i].step.Delete?)
  }

  lemma MailKeepsWinners(ttlHours: nat, s: System, r: nat)
    requires Guard.WinnersSound(s.guard)
    ensures Guard.WinnersSound(AfterDeliverMail(ttlHours, s, r).guard)
  {
    if r in s.reqs && s.reqs[r].txn.Some? && r in s.jobs && s.jobs[r].Ended? && s.jobs[r].reply.Some? {
      var id, reply := s.reqs[r].txn.value, s.jobs[r].reply.value;
      Guard.NextKeepsWinners(ttlHours, s.guard, Guard.Complete(id, FinalState(reply), Some(Result(id, reply))));
    }
  }

  lemma NextKeepsWinners(ttlHours: nat, s: System, e: Event)
    requires Owned(s) && Guard.WinnersSound(s.guard) && !(e.GuardStep? && e.step.Delete?)
    ensures Guard.WinnersSound(Next(ttlHours, s, e).guard)
  {
    if e.Arrive? {
      Guard.NextKeepsWinners(ttlHours, s.guard, Guard.Invoke(e.r, e.key));
    } else if e.GuardStep? {
      Guard.NextKeepsWinners(ttlHours, s.guard, e.step);
    } else if e.DeliverMail? {
      MailKeepsWinners(ttlHours, s, e.r);
    } else if IsEarly(e) {
      EarlyTableFrame(ttlHours, s, e);
    } else {
      LateFrame(ttlHours, s, e);
    }
  }

  lemma {:induction false} AlwaysOneWinner(ttlHours: nat, es: seq<Event>)
    requires NoDelete(es)
    ensures Guard.WinnersSound(Run(ttlHours, es).guard)
  {
    if es != [] {
      var n := |es| - 1;
      AlwaysOwned(ttlHours, es[..n]);
      AlwaysOneWinner(ttlHours, es[..n]);
      NextKeepsWinners(ttlHours, Run(ttlHours, es[..n]), es[n]);
    }
  }

  /** Two requests of one key that both got past the check as new are the same request. */
  lemma SameWinner(s: System, p: nat, q: nat)
    requires Owned(s) && Guard.WinnersSound(s.guard)
    requires p in s.reqs && q in s.reqs && s.reqs[p].key == s.reqs[q].key
    requires Guard.Won(s.guard, p) && Guard.Won(s.guard, q)
    ensures p == q
  {
    assert RequestSound(s, p) && RequestSound(s, q);
  }

  /** However many requests and retries of a key arrive, and wherever they fail, at most one of them
      writes a transaction row. */
  lemma OneRowPerKey(ttlHours: nat, es: seq<Event>, a: Id, b: Id)
    requires NoDelete(es)
    requires var s := Run(ttlHours, es); a in s.txns && b in s.txns && s.txns[a].key == s.txns[b].key
    ensures a == b
  {
    AlwaysOwned(ttlHours, es);
    AlwaysOneWinner(ttlHours, es);
    OneRowPerKeyIn(Run(ttlHours, es), a, b);
  }

  lemma OneRowPerKeyIn(s: System, a: Id, b: Id)
    requires Owned(s) && Guard.WinnersSound(s.guard)
    requires a in s.txns && b in s.txns && s.txns[a].key == s.txns[b].key
    ensures a == b
  {
    var p, q := s.writers[a], s.writers[b];
    assert RequestSound(s, p) && RequestSound(s, q);
    SameWinner(s, p, q);
  }

  /** ... and at most one send reaches the adapter, also when the bank's answer was lost and the
      client tries again. */
  lemma OneSendPerKey(ttlHours: nat, es: seq<Event>, i: nat, j: nat)
    requires NoDelete(es)
    requires var calls := Run(ttlHours, es).calls; i < |calls| && j < |calls| && calls[i].key == calls[j].key
    ensures i == j
  {
    var s := Run(ttlHours, es);
    AlwaysOwned(ttlHours, es);
    AlwaysOneWinner(ttlHours, es);
    AlwaysCallsAndPostsSound(ttlHours, es);
    assert RequestSound(s, s.calls[i].request) && RequestSound(s, s.calls[j].request);
    SameWinner(s, s.calls[i].request, s.calls[j].request);
  }

  function PostsForKey(s: System, posts: seq<Post>, key: Id): nat {
    if posts == [] then 0
    else
      var r := posts[|posts| - 1].request;
      PostsForKey(s, posts[..|posts| - 1], key) + if r in s.reqs && s.reqs[r].key == key then 1 else 0
  }

  lemma {:induction false} PostsForKeyAreOneRequests(s: System, posts: seq<Post>, key: Id, r: nat)
    requires forall i :: 0 <= i < |posts| && posts[i].request in s.reqs && s.reqs[posts[i].request].key == key ==>
                           posts[i].request == r
    ensures PostsForKey(s, posts, key) <= |PostsOf(posts, r)|
  {
    if posts != [] {
      PostsForKeyAreOneRequests(s, posts[..|posts| - 1], key, r);
    }
  }

  lemma {:induction false} NoPostsForKey(s: System, posts: seq<Post>, key: Id)
    requires forall i :: 0 <= i < |posts| ==> !(posts[i].request in s.reqs && s.reqs[posts[i].request].key == key)
    ensures PostsForKey(s, posts, key) == 0
  {
    if posts != [] {
      NoPostsForKey(s, posts[..|posts| - 1], key);
    }
  }

  /** One key costs the banks at most two POSTs. */
  lemma AtMostTwoPostsPerKey(ttlHours: nat, es: seq<Event>, key: Id)
    requires NoDelete(es)
    ensures PostsForKey(Run(ttlHours, es), Run(ttlHours, es).posts, key) <= 2
  {
    var s := Run(ttlHours, es);
    AlwaysOwned(ttlHours, es);
    AlwaysOneWinner(ttlHours, es);
    AlwaysCallsAndPostsSound(ttlHours, es);
    if i :| 0 <= i < |s.posts| && s.posts[i].request in s.reqs && s.reqs[s.posts[i].request].key == key {
      var r := s.posts[i].request;
      assert RequestSound(s, r);
      JobFitsExactly(s.jobs[r], PostsOf(s.posts, r));
      forall j | 0 <= j < |s.posts| && s.posts[j].request in s.reqs && s.reqs[s.posts[j].request].key == key
        ensures s.posts[j].request == r
      {
        assert RequestSound(s, s.posts[j].request);
        SameWinner(s, s.posts[j].request, r);
      }
      PostsForKeyAreOneRequests(s, s.posts, key, r);
    } else {
      NoPostsForKey(s, s.posts, key);
    }
  }

  // ---------------------------------------------------------------- when the guard's rows expire

  ghost predicate IsWinOf(g: Guard.System, i: int, p: nat) {
    0 <= i < |g.wins| && g.wins[i].proc == p && p in g.procs && g.wins[i].key == g.procs[p].key
  }

  /** The guard's wins of one key lie apart, and every "new" verdict is one of them. */
  ghost predicate WinsSound(ttlHours: nat, g: Guard.System) {
    && Guard.WinsCovered(ttlHours, g) && Guard.WinsApart(ttlHours, g)
    && (forall p :: Guard.Won(g, p) ==> exists i :: IsWinOf(g, i, p))
  }

  lemma GuardKeepsWinsSound(ttlHours: nat, g: Guard.System, e: Guard.Event)
    requires WinsSound(ttlHours, g)
    ensures WinsSound(ttlHours, Guard.Next(ttlHours, g, e))
  {
    var g' := Guard.Next(ttlHours, g, e);
    Guard.NextKeepsWinsApart(ttlHours, g, e);
    forall p | Guard.Won(g', p) ensures exists i :: IsWinOf(g', i, p) {
      Guard.NewIsRecorded(ttlHours, g, e, p);
      if Guard.Won(g, p) {
        var i :| IsWinOf(g, i, p);
        assert IsWinOf(g', i, p);
      } else {
        assert IsWinOf(g', |g.wins|, p);
      }
    }
  }

  lemma MailKeepsWinsSound(ttlHours: nat, s: System, r: nat)
    requires WinsSound(ttlHours, s.guard)
    ensures WinsSound(ttlHours, AfterDeliverMail(ttlHours, s, r).guard)
  {
    if r in s.reqs && s.reqs[r].txn.Some? && r in s.jobs && s.jobs[r].Ended? && s.jobs[r].reply.Some? {
      var id, reply := s.reqs[r].txn.value, s.jobs[r].reply.value;
      GuardKeepsWinsSound(ttlHours, s.guard, Guard.Complete(id, FinalState(reply), Some(Result(id, reply))));
    }
  }

  lemma NextKeepsWinsSound(ttlHours: nat, s: System, e: Event)
    requires Owned(s) && WinsSound(ttlHours, s.guard)
    ensures WinsSound(ttlHours, Next(ttlHours, s, e).guard)
  {
    if e.Arrive? {
      GuardKeepsWinsSound(ttlHours, s.guard, Guard.Invoke(e.r, e.key));
    } else if e.GuardStep? {
      GuardKeepsWinsSound(ttlHours, s.guard, e.step);
    } else if e.DeliverMail? {
      MailKeepsWinsSound(ttlHours, s, e.r);
    } else if IsEarly(e) {
      EarlyTableFrame(ttlHours, s, e);
    } else {
      LateFrame(ttlHours, s, e);
    }
  }

  lemma {:induction false} AlwaysWinsSound(ttlHours: nat, es: seq<Event>)
    ensures WinsSound(ttlHours, Run(ttlHours, es).guard)
  {
    if es != [] {
      var n := |es| - 1;
      AlwaysOwned(ttlHours, es[..n]);
      AlwaysWinsSound(ttlHours, es[..n]);
      NextKeepsWinsSound(ttlHours, Run(ttlHours, es[..n]), es[n]);
    }
  }

  /** Wins i and j are those of the requests p and q, and the later insert is a full TTL, less the
      rounding second, after the earlier one's clock reading. */
  ghost predicate ATtlApart(ttlHours: nat, s: System, i: int, j: int, p: nat, q: nat) {
    && IsWinOf(s.guard, i, p) && IsWinOf(s.guard, j, q)
    && (var first, second := s.guard.wins[if i < j then i else j], s.guard.wins[if i < j then j else i];
        second.insertedAt - first.readAt > ttlHours * 3600 * 1000 - 1000)
  }

  /** Two requests whose inserts lie a TTL apart. */
  ghost predicate RequestsApart(ttlHours: nat, s: System, p: nat, q: nat) {
    exists i, j :: ATtlApart(ttlHours, s, i, j, p, q)
  }

  lemma WinOf(ttlHours: nat, s: System, p: nat) returns (i: int)
    requires Owned(s) && WinsSound(ttlHours, s.guard) && p in s.reqs && s.reqs[p].txn.Some?
    ensures IsWinOf(s.guard, i, p) && s.guard.wins[i].key == s.reqs[p].key
  {
    assert RequestSound(s, p);
    i :| IsWinOf(s.guard, i, p);
  }

  /** Two requests of one key that both wrote a row were let through a TTL apart. */
  lemma RequestsApartIn(ttlHours: nat, s: System, p: nat, q: nat)
    requires Owned(s) && WinsSound(ttlHours, s.guard) && p != q
    requires p in s.reqs && q in s.reqs && s.reqs[p].txn.Some? && s.reqs[q].txn.Some?
    requires s.reqs[p].key == s.reqs[q].key
    ensures RequestsApart(ttlHours, s, p, q)
  {
    var i := WinOf(ttlHours, s, p);
    var j := WinOf(ttlHours, s, q);
    assert ATtlApart(ttlHours, s, i, j, p, q);
  }

  /** Also when the guard's rows are deleted at their expiry: two rows of one key were let through by
      inserts a full TTL apart. */
  lemma RowsOfOneKeyATtlApart(ttlHours: nat, es: seq<Event>, a: Id, b: Id)
    requires var s := Run(ttlHours, es); a in s.txns && b in s.txns && s.txns[a].key == s.txns[b].key
    requires a != b
    ensures var s := Run(ttlHours, es);
            a in s.writers && b in s.writers && RequestsApart(ttlHours, s, s.writers[a], s.writers[b])
  {
    AlwaysOwned(ttlHours, es);
    AlwaysWinsSound(ttlHours, es);
    RowsApartIn(ttlHours, Run(ttlHours, es), a, b);
  }

  lemma RowsApartIn(ttlHours: nat, s: System, a: Id, b: Id)
    requires Owned(s) && WinsSound(ttlHours, s.guard)
    requires a in s.txns && b in s.txns && s.txns[a].key == s.txns[b].key && a != b
    ensures a in s.writers && b in s.writers && RequestsApart(ttlHours, s, s.writers[a], s.writers[b])
  {
    assert RequestSound(s, s.writers[a]) && RequestSound(s, s.writers[b]);
    RequestsApartIn(ttlHours, s, s.writers[a], s.writers[b]);
  }

  /** ... so were two sends of one key ... */
  lemma SendsOfOneKeyATtlApart(ttlHours: nat, es: seq<Event>, i: nat, j: nat)
    requires var calls := Run(ttlHours, es).calls; i < j < |calls| && calls[i].key == calls[j].key
    ensures var s := Run(ttlHours, es); RequestsApart(ttlHours, s, s.calls[i].request, s.calls[j].request)
  {
    AlwaysOwned(ttlHours, es);
    AlwaysWinsSound(ttlHours, es);
    AlwaysCallsAndPostsSound(ttlHours, es);
    SendsApartIn(ttlHours, Run(ttlHours, es), i, j);
  }

  lemma SendsApartIn(ttlHours: nat, s: System, i: nat, j: nat)
    requires Owned(s) && WinsSound(ttlHours, s.guard) && CallsSound(s)
    requires i < j < |s.calls| && s.calls[i].key == s.calls[j].key
    ensures RequestsApart(ttlHours, s, s.calls[i].request, s.calls[j].request)
  {
    RequestsApartIn(ttlHours, s, s.calls[i].request, s.calls[j].request);
  }

  /** ... and two bank POSTs of one key, unless they are of the same send. */
  lemma PostsOfOneKeyATtlApart(ttlHours: nat, es: seq<Event>, i: nat, j: nat)
    requires var s := Run(ttlHours, es);
             && i < |s.posts| && j < |s.posts| && s.posts[i].request != s.posts[j].request
             && s.posts[i].request in s.reqs && s.posts[j].request in s.reqs
             && s.reqs[s.posts[i].request].key == s.reqs[s.posts[j].request].key
    ensures var s := Run(ttlHours, es); RequestsApart(ttlHours, s, s.posts[i].request, s.posts[j].request)
  {
    AlwaysOwned(ttlHours, es);
    AlwaysWinsSound(ttlHours, es);
    AlwaysCallsAndPostsSound(ttlHours, es);
    PostsApartIn(ttlHours, Run(ttlHours, es), i, j);
  }

  lemma PostsApartIn(ttlHours: nat, s: System, i: nat, j: nat)
    requires Owned(s) && WinsSound(ttlHours, s.guard) && PostsSound(s)
    requires i < |s.posts| && j < |s.posts| && s.posts[i].request != s.posts[j].request
    requires s.posts[i].request in s.reqs && s.posts[j].request in s.reqs
    requires s.reqs[s.posts[i].request].key == s.reqs[s.posts[j].request].key
    ensures RequestsApart(ttlHours, s, s.posts[i].request, s.posts[j].request)
  {
    assert RequestSound(s, s.posts[i].request) && RequestSound(s, s.posts[j].request);
    RequestsApartIn(ttlHours, s, s.posts[i].request, s.posts[j].request);
  }
}
