/** What duplicates are told: the winner's transaction, never going back. */
module PaymentReplies {
  import opened Options
  import opened Records
  import Guard
  import Adapter
  import TxnStore
  import opened Payment
  import opened PaymentOwnership
  import opened PaymentFrames
  import opened PaymentSafety

  predicate Terminal(state: TxnState) {
    state.SUCCESS? || state.FAILED?
  }

  predicate StateNotBefore(a: TxnState, b: TxnState) {
    a == b || a.INITIATED? || (a.PROCESSING? && Terminal(b))
  }

  /** A reply given earlier, against the row as it is now. */
  predicate StillTrue(payload: Payload, row: TxnStore.Row) {
    && StateNotBefore(payload.status, row.state)
    && (Terminal(payload.status) ==> row.state == payload.status && row.bankRrn == payload.bankRrn)
  }

  ghost predicate RepliesTrue(s: System) {
    forall i :: 0 <= i < |s.slow| ==>
                  && TxnStore.Matches(s.txns, s.slow[i].payload.txnId, s.slow[i].key)
                  && StillTrue(s.slow[i].payload, s.txns[s.slow[i].payload.txnId])
  }

  predicate Follows(earlier: Payload, later: Payload) {
    && later.txnId == earlier.txnId
    && StateNotBefore(earlier.status, later.status)
    && (Terminal(earlier.status) ==> later == earlier)
  }

  ghost predicate RepliesAgree(s: System) {
    forall i, j :: 0 <= i < j < |s.slow| && s.slow[i].key == s.slow[j].key ==>
                     Follows(s.slow[i].payload, s.slow[j].payload)
  }

  lemma MovedRowsKeepReplies(s: System, s': System)
    requires RepliesTrue(s) && RepliesAgree(s) && RowsMove(s, s') && s'.slow == s.slow
    ensures RepliesTrue(s') && RepliesAgree(s')
  {
  }

  predicate SaysRow(txns: TxnStore.Rows, x: SlowReply) {
    && TxnStore.Matches(txns, x.payload.txnId, x.key)
    && x.payload == Payload(x.payload.txnId, txns[x.payload.txnId].state, txns[x.payload.txnId].bankRrn)
  }

  lemma ScanReply(s: System, r: nat, hit: Option<Id>, ok: bool)
    ensures var s' := AfterScan(s, r, hit, ok);
            && s'.txns == s.txns
            && (s'.slow == s.slow || exists x :: s'.slow == s.slow + [x] && SaysRow(s.txns, x))
  {
    var s' := AfterScan(s, r, hit, ok);
    if s'.slow != s.slow {
      var x := s'.slow[|s.slow|];
      assert s'.slow == s.slow + [x] && SaysRow(s.txns, x);
    }
  }

  lemma NewReplyFollows(s: System, x: SlowReply, i: nat)
    requires Owned(s) && Guard.WinnersSound(s.guard) && RepliesTrue(s)
    requires SaysRow(s.txns, x) && i < |s.slow| && s.slow[i].key == x.key
    ensures Follows(s.slow[i].payload, x.payload)
  {
    OneRowPerKeyIn(s, s.slow[i].payload.txnId, x.payload.txnId);
  }

  lemma NewReplyIsTrue(s: System, s': System, x: SlowReply)
    requires RepliesTrue(s) && SaysRow(s.txns, x) && s'.slow == s.slow + [x] && s'.txns == s.txns
    ensures RepliesTrue(s')
  {
  }

  lemma NewReplyAgrees(s: System, s': System, x: SlowReply)
    requires Owned(s) && Guard.WinnersSound(s.guard) && RepliesTrue(s) && RepliesAgree(s)
    requires SaysRow(s.txns, x) && s'.slow == s.slow + [x]
    ensures RepliesAgree(s')
  {
    forall i | 0 <= i < |s.slow| && s.slow[i].key == x.key
      ensures Follows(s.slow[i].payload, x.payload)
    {
      NewReplyFollows(s, x, i);
    }
  }

  lemma ScanKeepsReplies(s: System, r: nat, hit: Option<Id>, ok: bool)
    requires Owned(s) && Guard.WinnersSound(s.guard) && RepliesTrue(s) && RepliesAgree(s)
    ensures RepliesTrue(AfterScan(s, r, hit, ok)) && RepliesAgree(AfterScan(s, r, hit, ok))
  {
    var s' := AfterScan(s, r, hit, ok);
    ScanReply(s, r, hit, ok);
    if s'.slow != s.slow {
      var x :| s'.slow == s.slow + [x] && SaysRow(s.txns, x);
      NewReplyIsTrue(s, s', x);
      NewReplyAgrees(s, s', x);
    }
  }

  lemma NextKeepsReplies(ttlHours: nat, s: System, e: Event)
    requires Owned(s) && Guard.WinnersSound(s.guard) && RepliesTrue(s) && RepliesAgree(s)
    ensures RepliesTrue(Next(ttlHours, s, e)) && RepliesAgree(Next(ttlHours, s, e))
  {
    if e.Scan? {
      ScanKeepsReplies(s, e.r, e.hit, e.ok);
    } else {
      NextMovesRows(ttlHours, s, e);
      if IsEarly(e) {
        EarlyFrame(ttlHours, s, e);
      } else {
        LateFrame(ttlHours, s, e);
      }
      MovedRowsKeepReplies(s, Next(ttlHours, s, e));
    }
  }

  lemma {:induction false} AlwaysRepliesAgree(ttlHours: nat, es: seq<Event>)
    requires NoDelete(es)
    ensures RepliesTrue(Run(ttlHours, es)) && RepliesAgree(Run(ttlHours, es))
  {
    if es != [] {
      var n := |es| - 1;
      AlwaysOwned(ttlHours, es[..n]);
      AlwaysOneWinner(ttlHours, es[..n]);
      AlwaysRepliesAgree(ttlHours, es[..n]);
      NextKeepsReplies(ttlHours, Run(ttlHours, es[..n]), es[n]);
    }
  }

  /** All slow-path duplicate replies of a key name one transaction; their statuses never go back;
      after a terminal one all later ones are equal to it, reference included. */
  lemma DuplicateRepliesAgree(ttlHours: nat, es: seq<Event>, i: nat, j: nat)
    requires NoDelete(es)
    requires var slow := Run(ttlHours, es).slow; i < j < |slow| && slow[i].key == slow[j].key
    ensures Follows(Run(ttlHours, es).slow[i].payload, Run(ttlHours, es).slow[j].payload)
  {
    AlwaysRepliesAgree(ttlHours, es);
  }

  /** ... and that transaction is the one written by the one request the guard called new: there is
      such a request, and no other. */
  lemma DuplicateRepliesNameTheWinner(ttlHours: nat, es: seq<Event>, i: nat)
    requires NoDelete(es) && i < |Run(ttlHours, es).slow|
    ensures var s, x := Run(ttlHours, es), Run(ttlHours, es).slow[i];
            x.payload.txnId in s.writers && WonWith(s, s.writers[x.payload.txnId], x.key, x.payload.txnId)
            && forall q :: q in s.reqs && s.reqs[q].key == x.key && Guard.Won(s.guard, q) ==>
                             q == s.writers[x.payload.txnId]
  {
    AlwaysOwned(ttlHours, es);
    AlwaysOneWinner(ttlHours, es);
    AlwaysRepliesAgree(ttlHours, es);
    var s, x := Run(ttlHours, es), Run(ttlHours, es).slow[i];
    assert TxnStore.Matches(s.txns, x.payload.txnId, x.key);
    RowNamesTheWinner(s, x.key, x.payload.txnId);
  }

  /** The guard called r's request for the key new, and r wrote the row. */
  predicate WonWith(s: System, r: nat, key: Id, id: Id) {
    r in s.reqs && Guard.Won(s.guard, r) && s.reqs[r].key == key && s.reqs[r].txn == Some(id)
  }

  lemma RowNamesTheWinner(s: System, key: Id, id: Id)
    requires Owned(s) && Guard.WinnersSound(s.guard) && TxnStore.Matches(s.txns, id, key)
    ensures id in s.writers && WonWith(s, s.writers[id], key, id)
    ensures forall q :: q in s.reqs && s.reqs[q].key == key && Guard.Won(s.guard, q) ==> q == s.writers[id]
  {
    var writer := s.writers[id];
    assert RequestSound(s, writer);
    forall q | q in s.reqs && s.reqs[q].key == key && Guard.Won(s.guard, q) ensures q == writer {
      SameWinner(s, q, writer);
    }
  }

  // ---------------------------------------------------------------- the first answer

  lemma FirstAnswerIn(s: System, r: nat, payload: Payload)
    requires Owned(s) && AtPc(s, r, Finished(Answer(payload, NEW)))
    ensures s.reqs[r].txn == Some(payload.txnId) && payload.txnId in s.txns
    ensures s.txns[payload.txnId].key == Some(s.reqs[r].key)
    ensures s.txns[payload.txnId].state.SUCCESS? && payload.status.SUCCESS?
    ensures s.txns[payload.txnId].bankRrn == payload.bankRrn
  {
    assert RequestSound(s, r);
  }

  /** A first response is never given before the payment is final: its row is the request's own, is
      SUCCESS, and shows the reference the response shows. */
  lemma FirstAnswerIsFinal(ttlHours: nat, es: seq<Event>, r: nat, payload: Payload)
    requires AtPc(Run(ttlHours, es), r, Finished(Answer(payload, NEW)))
    ensures var s := Run(ttlHours, es);
            && s.reqs[r].txn == Some(payload.txnId) && payload.txnId in s.txns
            && s.txns[payload.txnId].key == Some(s.reqs[r].key)
            && s.txns[payload.txnId].state.SUCCESS? && payload.status.SUCCESS?
            && s.txns[payload.txnId].bankRrn == payload.bankRrn
  {
    AlwaysOwned(ttlHours, es);
    FirstAnswerIn(Run(ttlHours, es), r, payload);
  }

  lemma NextPersists(ttlHours: nat, s: System, e: Event)
    requires Owned(s)
    ensures Persists(s, Next(ttlHours, s, e))
  {
    if IsEarly(e) {
      EarlyFrame(ttlHours, s, e);
    } else {
      LateFrame(ttlHours, s, e);
    }
  }

  predicate StillEnded(s: System, s': System, r: nat) {
    && r in s.reqs && r in s'.reqs
    && s'.reqs[r].pc == s.reqs[r].pc && s'.reqs[r].key == s.reqs[r].key
  }

  lemma EndedStep(ttlHours: nat, s0: System, s: System, e: Event, r: nat)
    requires Owned(s) && StillEnded(s0, s, r) && s0.reqs[r].pc.Finished?
    ensures StillEnded(s0, Next(ttlHours, s, e), r)
  {
    NextPersists(ttlHours, s, e);
  }

  ghost predicate SlowGrows(s: System, s': System) {
    s'.slow == s.slow || exists x :: s'.slow == s.slow + [x] && SaysRow(s.txns, x)
  }

  /** What one step adds to the slow replies: nothing, or what a matching row says. */
  lemma SlowGrowth(ttlHours: nat, s: System, e: Event)
    requires Owned(s)
    ensures SlowGrows(s, Next(ttlHours, s, e))
  {
    if e.Scan? {
      ScanReply(s, e.r, e.hit, e.ok);
    } else if IsEarly(e) {
      EarlyFrame(ttlHours, s, e);
    } else {
      LateFrame(ttlHours, s, e);
    }
  }

  lemma ReplyRepeats(s: System, x: SlowReply, r: nat, payload: Payload)
    requires Owned(s) && Guard.WinnersSound(s.guard)
    requires AtPc(s, r, Finished(Answer(payload, NEW))) && SaysRow(s.txns, x) && x.key == s.reqs[r].key
    ensures x.payload == payload
  {
    FirstAnswerIn(s, r, payload);
    OneRowPerKeyIn(s, x.payload.txnId, payload.txnId);
  }

  /** Every slow reply of the key from number `from` on is the payload. */
  ghost predicate AllRepeat(slow: seq<SlowReply>, from: nat, key: Id, payload: Payload) {
    forall i :: from <= i < |slow| && slow[i].key == key ==> slow[i].payload == payload
  }

  lemma AppendRepeats(slow: seq<SlowReply>, x: SlowReply, from: nat, key: Id, payload: Payload)
    requires AllRepeat(slow, from, key, payload) && (x.key == key ==> x.payload == payload)
    ensures AllRepeat(slow + [x], from, key, payload)
  {
  }

  lemma RepeatStep(s: System, s': System, from: nat, r: nat, payload: Payload)
    requires Owned(s) && Guard.WinnersSound(s.guard) && AtPc(s, r, Finished(Answer(payload, NEW)))
    requires AllRepeat(s.slow, from, s.reqs[r].key, payload) && SlowGrows(s, s')
    ensures AllRepeat(s'.slow, from, s.reqs[r].key, payload)
  {
    if s'.slow != s.slow {
      var x :| s'.slow == s.slow + [x] && SaysRow(s.txns, x);
      if x.key == s.reqs[r].key {
        ReplyRepeats(s, x, r, payload);
      }
      AppendRepeats(s.slow, x, from, s.reqs[r].key, payload);
    }
  }

  /** r was answered in s0; in s it still is, and all slow replies since then repeat its answer. */
  ghost predicate Repeated(s0: System, s: System, r: nat, payload: Payload) {
    && AtPc(s0, r, Finished(Answer(payload, NEW))) && StillEnded(s0, s, r)
    && AllRepeat(s.slow, |s0.slow|, s0.reqs[r].key, payload)
  }

  lemma RepeatedStep(ttlHours: nat, s0: System, s: System, e: Event, r: nat, payload: Payload)
    requires Owned(s) && Guard.WinnersSound(s.guard) && Repeated(s0, s, r, payload)
    ensures Repeated(s0, Next(ttlHours, s, e), r, payload)
  {
    EndedStep(ttlHours, s0, s, e, r);
    SlowGrowth(ttlHours, s, e);
    RepeatStep(s, Next(ttlHours, s, e), |s0.slow|, r, payload);
  }

  lemma RunOneMore(ttlHours: nat, es: seq<Event>, later: seq<Event>)
    requires later != []
    ensures var m := |later| - 1;
            && Run(ttlHours, es + later) == Next(ttlHours, Run(ttlHours, es + later[..m]), later[m])
            && (NoDelete(es + later) ==> NoDelete(es + later[..m]))
  {
    var m := |later| - 1;
    assert (es + later)[..|es + later| - 1] == es + later[..m];
  }

  /** Idempotence as the client sees it: once a request was answered, every duplicate of its key that
      is answered from the table afterwards is told exactly the same. */
  lemma {:induction false} DuplicatesRepeatTheAnswer(
      ttlHours: nat, es: seq<Event>, later: seq<Event>, r: nat, payload: Payload)
    requires NoDelete(es + later)
    requires AtPc(Run(ttlHours, es), r, Finished(Answer(payload, NEW)))
    ensures Repeated(Run(ttlHours, es), Run(ttlHours, es + later), r, payload)
    decreases |later|
  {
    if later == [] {
      assert es + later == es;
    } else {
      var m := |later| - 1;
      RunOneMore(ttlHours, es, later);
      DuplicatesRepeatTheAnswer(ttlHours, es, later[..m], r, payload);
      AlwaysOwned(ttlHours, es + later[..m]);
      AlwaysOneWinner(ttlHours, es + later[..m]);
      RepeatedStep(ttlHours, Run(ttlHours, es), Run(ttlHours, es + later[..m]), later[m], r, payload);
    }
  }

  // ---------------------------------------------------------------- the completion goes elsewhere

  /** The switch completes the guard's record under the transaction id, and the guard looks it up by
      the idempotency key: what the guard knows of a result, it knows under a transaction id, and it
      is that transaction's final state. */
  ghost predicate ResultsUnderTxnIds(g: Guard.System, txns: TxnStore.Rows) {
    && (forall k :: k in g.rows ==> RecordUnderTxnId(k, g.rows[k], txns))
    && (forall p :: p in g.procs ==> AnswerUnderTxnId(g.procs[p], txns))
  }

  predicate IsResultOf(payload: Payload, id: Id, txns: TxnStore.Rows) {
    id in txns && Terminal(txns[id].state) && payload == Payload(id, txns[id].state, txns[id].bankRrn)
  }

  predicate RecordUnderTxnId(key: Id, row: Guard.Row, txns: TxnStore.Rows) {
    row.payload.Some? || !row.status.PROCESSING? ==>
      key in txns && (row.payload.Some? ==> IsResultOf(row.payload.value, key, txns))
  }

  predicate AnswerUnderTxnId(p: Guard.Proc, txns: TxnStore.Rows) {
    p.pc.Answered? && p.pc.answer.Duplicate? && p.pc.answer.payload.Some? ==>
      IsResultOf(p.pc.answer.payload.value, p.key, txns)
  }

  predicate MailFits(e: Guard.Event, txns: TxnStore.Rows) {
    e.Complete? ==> e.key in txns && e.payload.Some? && IsResultOf(e.payload.value, e.key, txns)
  }

  lemma GuardKeepsRecords(ttlHours: nat, g: Guard.System, txns: TxnStore.Rows, e: Guard.Event)
    requires ResultsUnderTxnIds(g, txns) && MailFits(e, txns)
    ensures forall k :: k in Guard.Next(ttlHours, g, e).rows ==>
                          RecordUnderTxnId(k, Guard.Next(ttlHours, g, e).rows[k], txns)
  {
  }

  lemma GuardKeepsAnswers(ttlHours: nat, g: Guard.System, txns: TxnStore.Rows, e: Guard.Event, p: nat)
    requires ResultsUnderTxnIds(g, txns) && p in Guard.Next(ttlHours, g, e).procs
    ensures AnswerUnderTxnId(Guard.Next(ttlHours, g, e).procs[p], txns)
  {
    if p in g.procs && g.procs[p].key in g.rows {
      assert RecordUnderTxnId(g.procs[p].key, g.rows[g.procs[p].key], txns);
    }
  }

  lemma GuardKeepsResults(ttlHours: nat, g: Guard.System, txns: TxnStore.Rows, e: Guard.Event)
    requires ResultsUnderTxnIds(g, txns) && MailFits(e, txns)
    ensures ResultsUnderTxnIds(Guard.Next(ttlHours, g, e), txns)
  {
    GuardKeepsRecords(ttlHours, g, txns, e);
    forall p | p in Guard.Next(ttlHours, g, e).procs
      ensures AnswerUnderTxnId(Guard.Next(ttlHours, g, e).procs[p], txns)
    {
      GuardKeepsAnswers(ttlHours, g, txns, e, p);
    }
  }

  lemma MailKeepsResults(ttlHours: nat, s: System, r: nat)
    requires Owned(s) && ResultsUnderTxnIds(s.guard, s.txns)
    ensures ResultsUnderTxnIds(AfterDeliverMail(ttlHours, s, r).guard, s.txns)
  {
    if r in s.reqs && !s.reqs[r].mail.Unsent? && s.reqs[r].txn.Some?
       && r in s.jobs && s.jobs[r].Ended? && s.jobs[r].reply.Some?
    {
      assert RequestSound(s, r);
      var id, reply := s.reqs[r].txn.value, s.jobs[r].reply.value;
      GuardKeepsResults(ttlHours, s.guard, s.txns, Guard.Complete(id, FinalState(reply), Some(Result(id, reply))));
    }
  }

  /** Final rows do not change, so results stay what they were. */
  lemma MovedRowsKeepResults(g: Guard.System, s: System, s': System)
    requires ResultsUnderTxnIds(g, s.txns) && RowsMove(s, s')
    ensures ResultsUnderTxnIds(g, s'.txns)
  {
    forall k | k in g.rows ensures RecordUnderTxnId(k, g.rows[k], s'.txns) {
      assert RecordUnderTxnId(k, g.rows[k], s.txns);
    }
    forall p | p in g.procs ensures AnswerUnderTxnId(g.procs[p], s'.txns) {
      assert AnswerUnderTxnId(g.procs[p], s.txns);
    }
  }

  lemma NextKeepsResults(ttlHours: nat, s: System, e: Event)
    requires Owned(s) && ResultsUnderTxnIds(s.guard, s.txns)
    ensures ResultsUnderTxnIds(Next(ttlHours, s, e).guard, s.txns)
  {
    if e.Arrive? {
      GuardKeepsResults(ttlHours, s.guard, s.txns, Guard.Invoke(e.r, e.key));
    } else if e.GuardStep? {
      if !e.step.Complete? {
        GuardKeepsResults(ttlHours, s.guard, s.txns, e.step);
      }
    } else if e.DeliverMail? {
      MailKeepsResults(ttlHours, s, e.r);
    } else if IsEarly(e) {
      EarlyTableFrame(ttlHours, s, e);
    } else {
      LateFrame(ttlHours, s, e);
    }
  }

  lemma {:induction false} AlwaysResultsUnderTxnIds(ttlHours: nat, es: seq<Event>)
    ensures ResultsUnderTxnIds(Run(ttlHours, es).guard, Run(ttlHours, es).txns)
  {
    if es != [] {
      var s, s' := Run(ttlHours, es[..|es| - 1]), Run(ttlHours, es);
      AlwaysOwned(ttlHours, es[..|es| - 1]);
      AlwaysResultsUnderTxnIds(ttlHours, es[..|es| - 1]);
      NextKeepsResults(ttlHours, s, es[|es| - 1]);
      NextMovesRows(ttlHours, s, es[|es| - 1]);
      MovedRowsKeepResults(s'.guard, s, s');
    }
  }

  /** Unless a client reuses a transaction id as its key, the guard's record of a key stays
      PROCESSING without a payload for ever. */
  lemma GuardRecordStaysProcessing(ttlHours: nat, es: seq<Event>, key: Id)
    requires key in Run(ttlHours, es).guard.rows && key !in Run(ttlHours, es).txns
    ensures Run(ttlHours, es).guard.rows[key].status.PROCESSING?
    ensures Run(ttlHours, es).guard.rows[key].payload.None?
  {
    AlwaysResultsUnderTxnIds(ttlHours, es);
    assert RecordUnderTxnId(key, Run(ttlHours, es).guard.rows[key], Run(ttlHours, es).txns);
  }

  /** So the switch's fast path for duplicates is taken only by such a client, and then hands it the
      final state, status and reference, of the payment that bears its key as transaction id. */
  lemma FastPathOnlyOnCollision(ttlHours: nat, es: seq<Event>, r: nat)
    requires var s := Run(ttlHours, es);
             && r in s.reqs && r in s.guard.procs && s.guard.procs[r].pc.Answered?
             && AfterVerdict(s.guard.procs[r].pc.answer).Finished?
    ensures var s := Run(ttlHours, es);
            IsResultOf(s.guard.procs[r].pc.answer.payload.value, s.reqs[r].key, s.txns)
  {
    AlwaysOwned(ttlHours, es);
    AlwaysResultsUnderTxnIds(ttlHours, es);
    FastPathIn(Run(ttlHours, es), r);
  }

  lemma FastPathIn(s: System, r: nat)
    requires Owned(s) && ResultsUnderTxnIds(s.guard, s.txns)
    requires r in s.reqs && r in s.guard.procs && s.guard.procs[r].pc.Answered?
    requires AfterVerdict(s.guard.procs[r].pc.answer).Finished?
    ensures IsResultOf(s.guard.procs[r].pc.answer.payload.value, s.reqs[r].key, s.txns)
  {
    assert RequestSound(s, r);
    assert AnswerUnderTxnId(s.guard.procs[r], s.txns);
  }

  // What completes a record, exactly, while rows are not deleted.

  ghost predicate HistorySound(g: Guard.System) {
    Guard.Linearized(g) && Guard.InsertsProcessing(g.history)
  }

  lemma GuardKeepsHistory(ttlHours: nat, g: Guard.System, e: Guard.Event)
    requires HistorySound(g) && Guard.WinnersSound(g) && !e.Delete?
    ensures HistorySound(Guard.Next(ttlHours, g, e))
  {
    Guard.NextLinearized(ttlHours, g, e);
    Guard.NextInsertsProcessing(ttlHours, g, e);
  }

  lemma MailKeepsHistory(ttlHours: nat, s: System, r: nat)
    requires HistorySound(s.guard) && Guard.WinnersSound(s.guard)
    ensures HistorySound(AfterDeliverMail(ttlHours, s, r).guard)
  {
    if r in s.reqs && s.reqs[r].txn.Some? && r in s.jobs && s.jobs[r].Ended? && s.jobs[r].reply.Some? {
      var id, reply := s.reqs[r].txn.value, s.jobs[r].reply.value;
      GuardKeepsHistory(ttlHours, s.guard, Guard.Complete(id, FinalState(reply), Some(Result(id, reply))));
    }
  }

  lemma NextKeepsHistory(ttlHours: nat, s: System, e: Event)
    requires Owned(s) && HistorySound(s.guard) && Guard.WinnersSound(s.guard) && !(e.GuardStep? && e.step.Delete?)
    ensures HistorySound(Next(ttlHours, s, e).guard)
  {
    if e.Arrive? {
      GuardKeepsHistory(ttlHours, s.guard, Guard.Invoke(e.r, e.key));
    } else if e.GuardStep? {
      GuardKeepsHistory(ttlHours, s.guard, e.step);
    } else if e.DeliverMail? {
      MailKeepsHistory(ttlHours, s, e.r);
    } else if IsEarly(e) {
      EarlyTableFrame(ttlHours, s, e);
    } else {
      LateFrame(ttlHours, s, e);
    }
  }

  lemma {:induction false} AlwaysHistorySound(ttlHours: nat, es: seq<Event>)
    requires NoDelete(es)
    ensures HistorySound(Run(ttlHours, es).guard)
  {
    if es != [] {
      var n := |es| - 1;
      AlwaysOwned(ttlHours, es[..n]);
      AlwaysOneWinner(ttlHours, es[..n]);
      AlwaysHistorySound(ttlHours, es[..n]);
      NextKeepsHistory(ttlHours, Run(ttlHours, es[..n]), es[n]);
    }
  }

  /** In the payment protocol: the guard's record of a key has left PROCESSING exactly when a
      completion sent under a transaction id equal to that key arrived after the record was made. */
  lemma RecordCompletedExactly(ttlHours: nat, es: seq<Event>, key: Id)
    requires NoDelete(es) && key in Run(ttlHours, es).guard.rows
    ensures var g := Run(ttlHours, es).guard;
            g.rows[key].status.PROCESSING? <==> !Guard.Finished(g.history, key)
  {
    AlwaysHistorySound(ttlHours, es);
    Guard.FinishedExactly(Run(ttlHours, es).guard.history, key);
  }
}
