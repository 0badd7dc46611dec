/**
 The idempotency guard: idempotency-guard/app/store.py and idempotency-guard/app/service.py.

 The check handler is a synchronous endpoint, so any number of checks run in parallel threads, and
 each is up to three separate table calls.  The table itself is linearizable.
 */
module Guard {
  import opened Options
  import opened Records

  // ---------------------------------------------------------------- the table

  datatype Row = Row(status: TxnState, payload: Option<Payload>, expiresAt: int)

  type Rows = map<Id, Row>

  /** A new record; the clock is read in milliseconds and stamped in whole seconds. */
  function NewRow(readAt: nat, ttlHours: nat): Row {
    Row(PROCESSING, None, readAt / 1000 + ttlHours * 3600)
  }

  function Inserted(rows: Rows, key: Id, row: Row): Rows {
    if key in rows then rows else rows[key := row]
  }

  function Completed(rows: Rows, id: Id, status: TxnState, payload: Option<Payload>): Rows {
    if id in rows && rows[id].status.PROCESSING? then rows[id := Row(status, payload, rows[id].expiresAt)]
    else rows
  }

  /** The answer to a check: the verdict, and what the guard knows of the first request. */
  datatype Answer = New | Duplicate(status: TxnState, payload: Option<Payload>)

  function DuplicateOf(row: Row): Answer {
    Duplicate(row.status, row.payload)
  }

  /** The check as its callers think of it: one indivisible check-or-insert. */
  datatype Checked = Checked(answer: Answer, rows: Rows)

  function AtomicCheck(rows: Rows, key: Id, row: Row): Checked {
    if key in rows then Checked(DuplicateOf(rows[key]), rows) else Checked(New, rows[key := row])
  }

  // ---------------------------------------------------------------- the handler, one thread

  /** What another thread may do to the table between two calls of this one. */
  datatype TableOp =
    | OtherInsert(key: Id, row: Row)
    | OtherComplete(key: Id, status: TxnState, payload: Option<Payload>)

  function Apply(rows: Rows, op: TableOp): Rows {
    match op
    case OtherInsert(key, row) => Inserted(rows, key, row)
    case OtherComplete(key, status, payload) => Completed(rows, key, status, payload)
  }

  function ApplyAll(rows: Rows, ops: seq<TableOp>): Rows {
    if ops == [] then rows else Apply(ApplyAll(rows, ops[..|ops| - 1]), ops[|ops| - 1])
  }

  lemma {:induction false} ApplyAllSplit(rows: Rows, ops: seq<TableOp>, more: seq<TableOp>)
    ensures ApplyAll(rows, ops + more) == ApplyAll(ApplyAll(rows, ops), more)
  {
    if more == [] {
      assert ops + more == ops;
    } else {
      var n := |more| - 1;
      ApplyAllSplit(rows, ops, more[..n]);
      assert (ops + more)[..|ops + more| - 1] == ops + more[..n];
    }
  }

  lemma {:induction false} KeysStay(rows: Rows, ops: seq<TableOp>, key: Id)
    requires key in rows
    ensures key in ApplyAll(rows, ops)
  {
    if ops != [] {
      KeysStay(rows, ops[..|ops| - 1], key);
    }
  }

  datatype CheckResponse = CheckResponse(
    duplicate: bool, status: TxnState, transactionId: Id, responsePayload: Option<Payload>)

  /** The check took effect, whole, after the first `point` of the other threads' operations: it says
      "duplicate" exactly when the key was in the table then, tells what the table had under it, and
      inserts a key that was not there. */
  ghost predicate TookEffectAt(
      before: Rows, key: Id, row: Row, others: seq<TableOp>, point: nat, r: CheckResponse, after: Rows)
    requires point <= |others|
  {
    var found := ApplyAll(before, others[..point]);
    var checked := AtomicCheck(found, key, row);
    && r.transactionId == key
    && (r.duplicate <==> key in found)
    && (if key in found then r.status == found[key].status && r.responsePayload == found[key].payload
        else r.status == PROCESSING && r.responsePayload == None)
    && checked.answer == (if r.duplicate then Duplicate(r.status, r.responsePayload) else New)
    && key in checked.rows
    && after == ApplyAll(checked.rows, others[point..])
  }

  /** Once a check of a key has been answered, whatever ran beside it and whatever runs after it, the
      next check of this key is a duplicate: of two checks at most one is told "new". */
  lemma SecondCheckIsDuplicate(
      before: Rows, key: Id,
      row: Row, others: seq<TableOp>, point: nat, r: CheckResponse, after: Rows,
      between: seq<TableOp>,
      row': Row, others': seq<TableOp>, point': nat, r': CheckResponse, after': Rows)
    requires point <= |others| && TookEffectAt(before, key, row, others, point, r, after)
    requires point' <= |others'|
    requires TookEffectAt(ApplyAll(after, between), key, row', others', point', r', after')
    ensures r'.duplicate
  {
    var checked := AtomicCheck(ApplyAll(before, others[..point]), key, row);
    KeysStay(checked.rows, others[point..], key);
    KeysStay(after, between, key);
    KeysStay(ApplyAll(after, between), others'[..point'], key);
  }

  class Store {
    var rows: Rows

    constructor ()
      ensures rows == map[]
    {
      rows := map[];
    }

    method InsertIfAbsent(key: Id, record: Row) returns (inserted: bool)
      modifies this
      ensures rows == Inserted(old(rows), key, record) && inserted == (key !in old(rows))
      ensures rows == if inserted then old(rows)[key := record] else old(rows)
    {
      if key in rows {
        return false;
      }
      rows := rows[key := record];
      return true;
    }

    method FindByKey(key: Id) returns (item: Option<Row>)
      ensures item == if key in rows then Some(rows[key]) else None
    {
      if key in rows {
        return Some(rows[key]);
      }
      return None;
    }

    method Complete(key: Id, status: TxnState, payload: Option<Payload>)
      modifies this
      ensures rows == Completed(old(rows), key, status, payload)
      ensures rows == if key in old(rows) && old(rows)[key].status.PROCESSING? then
                        old(rows)[key := Row(status, payload, old(rows)[key].expiresAt)]
                      else old(rows)
    {
      if key in rows && rows[key].status.PROCESSING? {
        rows := rows[key := rows[key].(status := status, payload := payload)];
      }
    }

    method Others(ops: seq<TableOp>)
      modifies this
      ensures rows == ApplyAll(old(rows), ops)
    {
      for i := 0 to |ops|
        invariant rows == ApplyAll(old(rows), ops[..i])
      {
        assert ops[..i + 1][..i] == ops[..i];
        match ops[i] {
          case OtherInsert(key, row) => var _ := InsertIfAbsent(key, row);
          case OtherComplete(key, status, payload) => Complete(key, status, payload);
        }
      }
      assert ops[..|ops|] == ops;
    }
  }

  /** service.check, with other threads' operations let in after the first and the second table
      call.  Whatever they are, the three calls amount to one atomic check at some point among the
      operations that ran.  A key that is there is a duplicate, told with its status and payload; a
      key is new exactly when the others' first operations have not brought it, and then this
      check's own record is in the table; after a lost race the row is always found. */
  method Check(store: Store, key: Id, record: Row, first: seq<TableOp>, second: seq<TableOp>)
    returns (r: CheckResponse, ghost ran: seq<TableOp>)
    modifies store
    ensures exists point: nat | point <= |ran| ::
              TookEffectAt(old(store.rows), key, record, ran, point, r, store.rows)
    ensures r.transactionId == key
    ensures r.duplicate <==> key in ApplyAll(old(store.rows), first)
    ensures key in old(store.rows) ==>
              && r.duplicate && ran == [] && store.rows == old(store.rows)
              && r.status == old(store.rows)[key].status && r.responsePayload == old(store.rows)[key].payload
    ensures key !in old(store.rows) ==> ran == if r.duplicate then first + second else first
    ensures !r.duplicate ==>
              && r.status == PROCESSING && r.responsePayload == None
              && store.rows == ApplyAll(old(store.rows), first)[key := record]
    ensures r.duplicate ==>
              && store.rows == ApplyAll(old(store.rows), ran)
              && key in store.rows
              && r.status == store.rows[key].status && r.responsePayload == store.rows[key].payload
  {
    ghost var before := store.rows;
    var existing := store.FindByKey(key);
    if existing.Some? {
      ran := [];
      KeysStay(before, first, key);
      r := CheckResponse(true, existing.value.status, key, existing.value.payload);
      assert TookEffectAt(before, key, record, ran, 0, r, store.rows);
      return;
    }
    store.Others(first);
    var inserted := store.InsertIfAbsent(key, record);
    if !inserted {
      store.Others(second);
      ran := first + second;
      ApplyAllSplit(before, first, second);
      KeysStay(ApplyAll(before, first), second, key);
      existing := store.FindByKey(key);
      r := CheckResponse(
        true,
        if existing.Some? then existing.value.status else PROCESSING,
        key,
        if existing.Some? then existing.value.payload else None);
      assert ran[..|ran|] == ran && ran[|ran|..] == [];
      assert TookEffectAt(before, key, record, ran, |ran|, r, store.rows);
      return;
    }
    ran := first;
    r := CheckResponse(false, PROCESSING, key, None);
    assert ran[..|ran|] == ran && ran[|ran|..] == [];
    assert TookEffectAt(before, key, record, ran, |ran|, r, store.rows);
  }

  // ---------------------------------------------------------------- all threads

  /** Where a check stands: about to find, to insert, or to find again; or finished. */
  datatype Pc = Finding | Inserting | Refinding | Answered(answer: Answer, answeredAt: nat) | Aborted

  datatype Proc = Proc(key: Id, pc: Pc, invokedAt: nat)

  /** Effects in the order they took place, with the step at which each did. */
  datatype Op =
    | CheckOp(proc: nat, key: Id, row: Row, answer: Answer)
    | OrphanInsert(key: Id, row: Row)        // an insert whose reply never reached its check
    | CompleteOp(key: Id, status: TxnState, payload: Option<Payload>)

  datatype Effect = Effect(op: Op, at: nat)

  /** A non-duplicate verdict: when the insert's clock was read and when the insert took place. */
  datatype Win = Win(proc: nat, key: Id, readAt: nat, insertedAt: nat)

  datatype System = System(
    rows: Rows,
    procs: map<nat, Proc>,
    history: seq<Effect>,
    wins: seq<Win>,
    clock: nat,       // milliseconds
    steps: nat)

  const START := System(map[], map[], [], [], 0, 0)

  /** How an insert ends: like any table call, or lost and then repeated by the client library,
      whose second attempt finds the row its first one left. */
  datatype InsertFate = Ended(fate: Fate) | LostThenRepeated

  datatype Event =
    | Tick(to: nat)
    | Invoke(proc: nat, key: Id)
    | Find(proc: nat, ok: bool)
    | Insert(proc: nat, readAt: nat, how: InsertFate)
    | Refind(proc: nat, ok: bool)
    | Complete(key: Id, status: TxnState, payload: Option<Payload>)
    | Delete(key: Id)

  function WithPc(s: System, p: nat, pc: Pc): System
    requires p in s.procs
  {
    s.(procs := s.procs[p := s.procs[p].(pc := pc)])
  }

  function WithEffect(s: System, op: Op): System {
    s.(history := s.history + [Effect(op, s.steps)])
  }

  /** The check answers, and its effect is this step. */
  function AnswerNow(s: System, p: nat, row: Row, answer: Answer): System
    requires p in s.procs
  {
    WithEffect(WithPc(s, p, Answered(answer, s.steps)), CheckOp(p, s.procs[p].key, row, answer))
  }

  function AfterInsert(ttlHours: nat, s: System, p: nat, readAt: nat, how: InsertFate): System
    requires p in s.procs
  {
    var key, row := s.procs[p].key, NewRow(readAt, ttlHours);
    match how
    case Ended(Done) =>
      if key in s.rows then WithPc(s, p, Refinding)
      else
        var answered := AnswerNow(s, p, row, New);
        answered.(rows := Inserted(s.rows, key, row), wins := s.wins + [Win(p, key, readAt, s.clock)])
    case Ended(Refused) => WithPc(s, p, Aborted)
    case Ended(Lost) =>
      WithEffect(WithPc(s, p, Aborted), OrphanInsert(key, row)).(rows := Inserted(s.rows, key, row))
    case LostThenRepeated =>
      WithEffect(WithPc(s, p, Refinding), OrphanInsert(key, row)).(rows := Inserted(s.rows, key, row))
  }

  function AfterFind(s: System, p: nat): System
    requires p in s.procs
  {
    var key := s.procs[p].key;
    if key in s.rows then AnswerNow(s, p, s.rows[key], DuplicateOf(s.rows[key])) else WithPc(s, p, Inserting)
  }

  /** After a lost race; when the row is gone all the same, the handler answers a bare duplicate. */
  function AfterRefind(s: System, p: nat): System
    requires p in s.procs
  {
    var key := s.procs[p].key;
    if key in s.rows then AnswerNow(s, p, s.rows[key], DuplicateOf(s.rows[key]))
    else WithPc(s, p, Answered(Duplicate(PROCESSING, None), s.steps))
  }

  predicate At(s: System, p: nat, pc: Pc) {
    p in s.procs && s.procs[p].pc == pc
  }

  function Effected(ttlHours: nat, s: System, e: Event): System {
    match e
    case Tick(to) => if s.clock <= to then s.(clock := to) else s
    case Invoke(p, key) => if p in s.procs then s else s.(procs := s.procs[p := Proc(key, Finding, s.steps)])
    case Find(p, ok) =>
      if !At(s, p, Finding) then s
      else if !ok then WithPc(s, p, Aborted)
      else AfterFind(s, p)
    case Insert(p, readAt, how) =>
      if !At(s, p, Inserting) || readAt > s.clock then s else AfterInsert(ttlHours, s, p, readAt, how)
    case Refind(p, ok) =>
      if !At(s, p, Refinding) then s
      else if !ok then WithPc(s, p, Aborted)
      else AfterRefind(s, p)
    case Complete(key, status, payload) =>
      WithEffect(s, CompleteOp(key, status, payload)).(rows := Completed(s.rows, key, status, payload))
    case Delete(key) =>
      if key in s.rows && s.rows[key].expiresAt * 1000 <= s.clock then s.(rows := s.rows - {key}) else s
  }

  /** One step; an event that cannot happen now only passes the time. */
  function Next(ttlHours: nat, s: System, e: Event): System {
    Effected(ttlHours, s, e).(steps := s.steps + 1)
  }

  function Run(ttlHours: nat, es: seq<Event>): System {
    if es == [] then START else Next(ttlHours, Run(ttlHours, es[..|es| - 1]), es[|es| - 1])
  }

  predicate NoDelete(es: seq<Event>) {
    forall i :: 0 <= i < |es| ==> !es[i].Delete?
  }

  // ---------------------------------------------------------------- one winner per key

  predicate Won(s: System, p: nat) {
    p in s.procs && s.procs[p].pc.Answered? && s.procs[p].pc.answer.New?
  }

  /** A verdict "new", like a lost race, leaves the key in the table. */
  ghost predicate KeysHeld(s: System) {
    forall p :: p in s.procs && (Won(s, p) || s.procs[p].pc.Refinding?) ==> s.procs[p].key in s.rows
  }

  ghost predicate OneWinnerPerKey(s: System) {
    forall p, q :: Won(s, p) && Won(s, q) && s.procs[p].key == s.procs[q].key ==> p == q
  }

  ghost predicate WinnersSound(s: System) {
    KeysHeld(s) && OneWinnerPerKey(s)
  }

  /** One check moves on; it may only win a key nobody held. */
  lemma MoveKeepsWinners(s: System, s': System, p: nat)
    requires WinnersSound(s) && p in s.procs && !Won(s, p)
    requires p in s'.procs && s'.procs == s.procs[p := s.procs[p].(pc := s'.procs[p].pc)]
    requires forall k :: k in s.rows ==> k in s'.rows
    requires Won(s', p) || s'.procs[p].pc.Refinding? ==> s.procs[p].key in s'.rows
    requires Won(s', p) ==> s.procs[p].key !in s.rows
    ensures WinnersSound(s')
  {
    forall q, r | Won(s', q) && Won(s', r) && s'.procs[q].key == s'.procs[r].key ensures q == r {
      assert q != p ==> Won(s, q);
      assert r != p ==> Won(s, r);
    }
  }

  lemma InsertKeepsWinners(ttlHours: nat, s: System, p: nat, readAt: nat, how: InsertFate)
    requires WinnersSound(s) && At(s, p, Inserting)
    ensures WinnersSound(AfterInsert(ttlHours, s, p, readAt, how))
  {
    MoveKeepsWinners(s, AfterInsert(ttlHours, s, p, readAt, how), p);
  }

  lemma EffectedKeepsWinners(ttlHours: nat, s: System, e: Event)
    requires WinnersSound(s) && !e.Delete?
    ensures WinnersSound(Effected(ttlHours, s, e))
  {
    match e
    case Find(p, ok) =>
      if At(s, p, Finding) {
        MoveKeepsWinners(s, Effected(ttlHours, s, e), p);
      }
    case Insert(p, readAt, how) =>
      if At(s, p, Inserting) && readAt <= s.clock {
        InsertKeepsWinners(ttlHours, s, p, readAt, how);
      }
    case Refind(p, ok) =>
      if At(s, p, Refinding) {
        MoveKeepsWinners(s, Effected(ttlHours, s, e), p);
      }
    case _ =>
  }

  lemma NextKeepsWinners(ttlHours: nat, s: System, e: Event)
    requires WinnersSound(s) && !e.Delete?
    ensures WinnersSound(Next(ttlHours, s, e))
  {
    var t := Effected(ttlHours, s, e);
    EffectedKeepsWinners(ttlHours, s, e);
    assert forall p :: Won(t.(steps := s.steps + 1), p) <==> Won(t, p);
  }

  /** Verdicts are final, and a check keeps its key. */
  lemma VerdictsAreFinal(ttlHours: nat, s: System, e: Event, p: nat)
    requires p in s.procs
    ensures p in Next(ttlHours, s, e).procs && Next(ttlHours, s, e).procs[p].key == s.procs[p].key
    ensures s.procs[p].pc.Answered? ==> Next(ttlHours, s, e).procs[p] == s.procs[p]
  {
  }

  lemma {:induction false} WinnersHeld(ttlHours: nat, es: seq<Event>)
    requires NoDelete(es)
    ensures WinnersSound(Run(ttlHours, es))
  {
    if es != [] {
      var n := |es| - 1;
      WinnersHeld(ttlHours, es[..n]);
      NextKeepsWinners(ttlHours, Run(ttlHours, es[..n]), es[n]);
    }
  }

  /** However many checks of a key run, fail, lose their replies or are repeated, at most one is
      told that its request is new. */
  lemma AtMostOneNew(ttlHours: nat, es: seq<Event>, p: nat, q: nat)
    requires NoDelete(es)
    requires Won(Run(ttlHours, es), p) && Won(Run(ttlHours, es), q)
    requires Run(ttlHours, es).procs[p].key == Run(ttlHours, es).procs[q].key
    ensures p == q
  {
    WinnersHeld(ttlHours, es);
  }

  /** After a lost race the second find always finds: the handler's bare-duplicate answer is never
      given while rows are not deleted. */
  lemma RefindFinds(ttlHours: nat, es: seq<Event>, p: nat)
    requires NoDelete(es) && At(Run(ttlHours, es), p, Refinding)
    ensures var s, s' := Run(ttlHours, es), Run(ttlHours, es + [Refind(p, true)]);
            && s.procs[p].key in s.rows
            && s'.procs[p].pc == Answered(DuplicateOf(s.rows[s.procs[p].key]), s.steps)
  {
    WinnersHeld(ttlHours, es);
    assert (es + [Refind(p, true)])[..|es|] == es;
  }

  // ---------------------------------------------------------------- linearizability

  function Step(rows: Rows, op: Op): Rows {
    match op
    case CheckOp(_, key, row, _) => AtomicCheck(rows, key, row).rows
    case OrphanInsert(key, row) => Inserted(rows, key, row)
    case CompleteOp(key, status, payload) => Completed(rows, key, status, payload)
  }

  /** The table that results from performing the effects one after the other. */
  function Replay(history: seq<Effect>): Rows {
    if history == [] then map[] else Step(Replay(history[..|history| - 1]), history[|history| - 1].op)
  }

  /** Performed one after the other, every check gives the answer it gave. */
  ghost predicate Sequential(history: seq<Effect>) {
    history == [] ||
    (&& Sequential(history[..|history| - 1])
     && (var op := history[|history| - 1].op;
         op.CheckOp? ==> op.answer == AtomicCheck(Replay(history[..|history| - 1]), op.key, op.row).answer))
  }

  ghost predicate InOrder(s: System) {
    && (forall i :: 0 <= i < |s.history| ==> s.history[i].at < s.steps)
    && (forall i, j :: 0 <= i < j < |s.history| ==> s.history[i].at < s.history[j].at)
  }

  ghost predicate IsEffectOf(s: System, x: Effect, p: nat) {
    && x.op.CheckOp? && x.op.proc == p && p in s.procs
    && x.op.key == s.procs[p].key
    && s.procs[p].pc == Answered(x.op.answer, x.at)
    && s.procs[p].invokedAt < x.at
  }

  /** Every check in the history has answered just so, within its own interval. */
  ghost predicate EffectsAnswered(s: System) {
    forall i :: 0 <= i < |s.history| && s.history[i].op.CheckOp? ==>
                  IsEffectOf(s, s.history[i], s.history[i].op.proc)
  }

  /** Every check that has answered is in the history. */
  ghost predicate AnswersEffected(s: System) {
    forall p :: p in s.procs && s.procs[p].pc.Answered? ==>
                  exists i :: 0 <= i < |s.history| && IsEffectOf(s, s.history[i], p)
  }

  ghost predicate Linearized(s: System) {
    && s.rows == Replay(s.history)
    && Sequential(s.history)
    && InOrder(s)
    && EffectsAnswered(s)
    && AnswersEffected(s)
    && (forall p :: p in s.procs ==> s.procs[p].invokedAt < s.steps)
  }

  lemma ReplaySnoc(history: seq<Effect>, x: Effect)
    ensures Replay(history + [x]) == Step(Replay(history), x.op)
    ensures Sequential(history + [x]) <==>
            Sequential(history) &&
            (x.op.CheckOp? ==> x.op.answer == AtomicCheck(Replay(history), x.op.key, x.op.row).answer)
  {
    assert (history + [x])[..|history + [x]| - 1] == history;
  }

  /** A step that answers nothing and takes no effect. */
  lemma QuietStepLinearized(s: System, s': System)
    requires Linearized(s)
    requires s'.rows == s.rows && s'.history == s.history && s'.steps == s.steps + 1
    requires forall p :: p in s.procs ==> p in s'.procs && s'.procs[p].key == s.procs[p].key
    requires forall p :: p in s.procs && s.procs[p].pc.Answered? ==> s'.procs[p] == s.procs[p]
    requires forall p :: p in s'.procs && s'.procs[p].pc.Answered? ==> p in s.procs && s.procs[p].pc.Answered?
    requires forall p :: p in s'.procs ==> s'.procs[p].invokedAt < s'.steps
    ensures Linearized(s')
  {
    forall p | p in s'.procs && s'.procs[p].pc.Answered?
      ensures exists i :: 0 <= i < |s'.history| && IsEffectOf(s', s'.history[i], p)
    {
      var i :| 0 <= i < |s.history| && IsEffectOf(s, s.history[i], p);
      assert IsEffectOf(s', s'.history[i], p);
    }
  }

  /** A step that takes effect without answering a check. */
  lemma OrphanStepLinearized(s: System, s': System, op: Op)
    requires Linearized(s) && !op.CheckOp?
    requires s'.rows == Step(s.rows, op) && s'.history == s.history + [Effect(op, s.steps)]
    requires s'.steps == s.steps + 1
    requires forall p :: p in s.procs ==> p in s'.procs && s'.procs[p].key == s.procs[p].key
    requires forall p :: p in s.procs && s.procs[p].pc.Answered? ==> s'.procs[p] == s.procs[p]
    requires forall p :: p in s'.procs ==> p in s.procs && s'.procs[p].invokedAt == s.procs[p].invokedAt
    requires forall p :: p in s'.procs && s'.procs[p].pc.Answered? ==> s.procs[p].pc.Answered?
    ensures Linearized(s')
  {
    ReplaySnoc(s.history, Effect(op, s.steps));
    forall p | p in s'.procs && s'.procs[p].pc.Answered?
      ensures exists i :: 0 <= i < |s'.history| && IsEffectOf(s', s'.history[i], p)
    {
      var i :| 0 <= i < |s.history| && IsEffectOf(s, s.history[i], p);
      assert IsEffectOf(s', s'.history[i], p);
    }
  }

  /** p answers in this step, and its effect is appended; the other answers keep theirs. */
  lemma AnswersStayEffected(s: System, s': System, p: nat, op: Op)
    requires AnswersEffected(s) && p in s.procs && op.CheckOp?
    requires s'.history == s.history + [Effect(op, s.steps)] && p in s'.procs
    requires s'.procs == s.procs[p := s'.procs[p]] && IsEffectOf(s', Effect(op, s.steps), p)
    ensures AnswersEffected(s')
  {
    forall q | q in s'.procs && s'.procs[q].pc.Answered?
      ensures exists i :: 0 <= i < |s'.history| && IsEffectOf(s', s'.history[i], q)
    {
      if q == p {
        assert IsEffectOf(s', s'.history[|s.history|], p);
      } else {
        var i :| 0 <= i < |s.history| && IsEffectOf(s, s.history[i], q);
        assert IsEffectOf(s', s'.history[i], q);
      }
    }
  }

  lemma AnswerKeepsEffects(s: System, s': System, p: nat, op: Op)
    requires EffectsAnswered(s) && InOrder(s) && p in s.procs && !s.procs[p].pc.Answered?
    requires s'.history == s.history + [Effect(op, s.steps)] && s'.steps == s.steps + 1 && p in s'.procs
    requires s'.procs == s.procs[p := s'.procs[p]] && IsEffectOf(s', Effect(op, s.steps), p)
    ensures EffectsAnswered(s') && InOrder(s')
  {
  }

  /** A step that answers a check takes effect at once. */
  lemma AnswerStepLinearized(s: System, s': System, p: nat, row: Row)
    requires Linearized(s) && p in s.procs && !s.procs[p].pc.Answered?
    requires var checked := AtomicCheck(s.rows, s.procs[p].key, row);
             && s'.rows == checked.rows
             && s'.procs == s.procs[p := s.procs[p].(pc := Answered(checked.answer, s.steps))]
             && s'.history == s.history + [Effect(CheckOp(p, s.procs[p].key, row, checked.answer), s.steps)]
    requires s'.steps == s.steps + 1
    ensures Linearized(s')
  {
    var x := s'.history[|s.history|];
    ReplaySnoc(s.history, x);
    AnswersStayEffected(s, s', p, x.op);
    AnswerKeepsEffects(s, s', p, x.op);
  }

  lemma InsertLinearized(ttlHours: nat, s: System, p: nat, readAt: nat, how: InsertFate)
    requires Linearized(s) && At(s, p, Inserting)
    ensures Linearized(AfterInsert(ttlHours, s, p, readAt, how).(steps := s.steps + 1))
  {
    var s' := AfterInsert(ttlHours, s, p, readAt, how).(steps := s.steps + 1);
    var key, row := s.procs[p].key, NewRow(readAt, ttlHours);
    match how
    case Ended(Done) =>
      if key in s.rows {
        QuietStepLinearized(s, s');
      } else {
        AnswerStepLinearized(s, s', p, row);
      }
    case Ended(Refused) => QuietStepLinearized(s, s');
    case Ended(Lost) => OrphanStepLinearized(s, s', OrphanInsert(key, row));
    case LostThenRepeated => OrphanStepLinearized(s, s', OrphanInsert(key, row));
  }

  lemma FindLinearized(ttlHours: nat, s: System, p: nat, ok: bool)
    requires Linearized(s)
    ensures Linearized(Next(ttlHours, s, Find(p, ok)))
  {
    if At(s, p, Finding) && ok && s.procs[p].key in s.rows {
      AnswerStepLinearized(s, Next(ttlHours, s, Find(p, ok)), p, s.rows[s.procs[p].key]);
    } else {
      QuietStepLinearized(s, Next(ttlHours, s, Find(p, ok)));
    }
  }

  lemma RefindLinearized(ttlHours: nat, s: System, p: nat, ok: bool)
    requires Linearized(s) && KeysHeld(s)
    ensures Linearized(Next(ttlHours, s, Refind(p, ok)))
  {
    if At(s, p, Refinding) && ok {
      AnswerStepLinearized(s, Next(ttlHours, s, Refind(p, ok)), p, s.rows[s.procs[p].key]);
    } else {
      QuietStepLinearized(s, Next(ttlHours, s, Refind(p, ok)));
    }
  }

  lemma InsertStepLinearized(ttlHours: nat, s: System, p: nat, readAt: nat, how: InsertFate)
    requires Linearized(s)
    ensures Linearized(Next(ttlHours, s, Insert(p, readAt, how)))
  {
    if At(s, p, Inserting) && readAt <= s.clock {
      InsertLinearized(ttlHours, s, p, readAt, how);
    } else {
      QuietStepLinearized(s, Next(ttlHours, s, Insert(p, readAt, how)));
    }
  }

  lemma NextLinearized(ttlHours: nat, s: System, e: Event)
    requires Linearized(s) && KeysHeld(s) && !e.Delete?
    ensures Linearized(Next(ttlHours, s, e))
  {
    if e.Find? {
      FindLinearized(ttlHours, s, e.proc, e.ok);
    } else if e.Insert? {
      InsertStepLinearized(ttlHours, s, e.proc, e.readAt, e.how);
    } else if e.Refind? {
      RefindLinearized(ttlHours, s, e.proc, e.ok);
    } else if e.Complete? {
      OrphanStepLinearized(s, Next(ttlHours, s, e), CompleteOp(e.key, e.status, e.payload));
    } else {
      QuietStepLinearized(s, Next(ttlHours, s, e));
    }
  }

  /** The concurrent guard refines the atomic check-or-insert map: performing the recorded effects
      one after the other, in the order they took place, yields the same table and gives every
      check the answer it gave; each answered check is there exactly once, inside its interval. */
  lemma {:induction false} GuardIsLinearizable(ttlHours: nat, es: seq<Event>)
    requires NoDelete(es)
    ensures Linearized(Run(ttlHours, es))
  {
    if es != [] {
      var n := |es| - 1;
      GuardIsLinearizable(ttlHours, es[..n]);
      WinnersHeld(ttlHours, es[..n]);
      NextLinearized(ttlHours, Run(ttlHours, es[..n]), es[n]);
    }
  }

  /** An answered check takes effect exactly once: it has an effect in the history, and no other. */
  lemma OneEffectPerCheck(ttlHours: nat, es: seq<Event>, p: nat)
    requires NoDelete(es)
    requires p in Run(ttlHours, es).procs && Run(ttlHours, es).procs[p].pc.Answered?
    ensures var s := Run(ttlHours, es);
            exists i :: 0 <= i < |s.history| && IsEffectOf(s, s.history[i], p) && OnlyEffect(s.history, i, p)
  {
    GuardIsLinearizable(ttlHours, es);
    OneEffectIn(Run(ttlHours, es), p);
  }

  ghost predicate OnlyEffect(history: seq<Effect>, i: int, p: nat) {
    forall j :: 0 <= j < |history| && history[j].op.CheckOp? && history[j].op.proc == p ==> j == i
  }

  lemma OneEffectIn(s: System, p: nat)
    requires Linearized(s) && p in s.procs && s.procs[p].pc.Answered?
    ensures exists i :: 0 <= i < |s.history| && IsEffectOf(s, s.history[i], p) && OnlyEffect(s.history, i, p)
  {
    var i :| 0 <= i < |s.history| && IsEffectOf(s, s.history[i], p);
    forall j | 0 <= j < |s.history| && s.history[j].op.CheckOp? && s.history[j].op.proc == p ensures j == i {
      assert IsEffectOf(s, s.history[j], p);
    }
    assert OnlyEffect(s.history, i, p);
  }

  /** i's check had answered before j's was invoked. */
  predicate Precedes(s: System, i: nat, j: nat) {
    && i < |s.history| && j < |s.history|
    && s.history[i].op.CheckOp? && s.history[j].op.CheckOp?
    && s.history[i].op.proc in s.procs && s.history[j].op.proc in s.procs
    && s.procs[s.history[i].op.proc].pc.Answered?
    && s.procs[s.history[i].op.proc].pc.answeredAt < s.procs[s.history[j].op.proc].invokedAt
  }

  lemma RealTimeOrderIn(s: System, i: nat, j: nat)
    requires InOrder(s) && EffectsAnswered(s) && Precedes(s, i, j)
    ensures i < j
  {
    assert IsEffectOf(s, s.history[i], s.history[i].op.proc);
    assert IsEffectOf(s, s.history[j], s.history[j].op.proc);
  }

  /** The sequential order respects real time: a check that answered before another was invoked
      takes effect first. */
  lemma RealTimeOrder(ttlHours: nat, es: seq<Event>, i: nat, j: nat)
    requires NoDelete(es) && Precedes(Run(ttlHours, es), i, j)
    ensures i < j
  {
    GuardIsLinearizable(ttlHours, es);
    RealTimeOrderIn(Run(ttlHours, es), i, j);
  }

  // ---------------------------------------------------------------- at least one winner, or not

  /** The effect inserted the key: a check that answered "new", or an insert whose reply was lost. */
  predicate Inserts(op: Op, key: Id) {
    (op.CheckOp? && op.key == key && op.answer.New?) || (op.OrphanInsert? && op.key == key)
  }

  lemma {:induction false} ReplayedKeysWereInserted(history: seq<Effect>, key: Id)
    requires Sequential(history) && key in Replay(history)
    ensures exists i :: 0 <= i < |history| && Inserts(history[i].op, key)
  {
    var n := |history| - 1;
    if key in Replay(history[..n]) {
      ReplayedKeysWereInserted(history[..n], key);
      var i :| 0 <= i < n && Inserts(history[..n][i].op, key);
      assert Inserts(history[i].op, key);
    } else {
      assert Inserts(history[n].op, key);
    }
  }

  lemma {:induction false} InsertedKeysStay(history: seq<Effect>, i: nat, key: Id)
    requires i < |history| && Inserts(history[i].op, key)
    ensures key in Replay(history)
  {
    var n := |history| - 1;
    if i < n {
      InsertedKeysStay(history[..n], i, key);
    }
  }

  predicate LostAnInsert(s: System, key: Id) {
    exists i :: 0 <= i < |s.history| && s.history[i].op.OrphanInsert? && s.history[i].op.key == key
  }

  ghost predicate HasWinner(s: System, key: Id) {
    exists p :: Won(s, p) && s.procs[p].key == key
  }

  /** A key is in the table exactly when some check of it was told "new" or an insert of it lost its
      reply; so, but for lost replies, every key in the table has its one winner. */
  lemma HeldKeysExactly(ttlHours: nat, es: seq<Event>, key: Id)
    requires NoDelete(es)
    ensures var s := Run(ttlHours, es);
            key in s.rows <==> HasWinner(s, key) || LostAnInsert(s, key)
  {
    GuardIsLinearizable(ttlHours, es);
    HeldKeysIn(Run(ttlHours, es), key);
  }

  lemma HeldKeysIn(s: System, key: Id)
    requires Linearized(s)
    ensures key in s.rows <==> HasWinner(s, key) || LostAnInsert(s, key)
  {
    if key in s.rows {
      ReplayedKeysWereInserted(s.history, key);
      var i :| 0 <= i < |s.history| && Inserts(s.history[i].op, key);
      if s.history[i].op.CheckOp? {
        assert IsEffectOf(s, s.history[i], s.history[i].op.proc);
        assert Won(s, s.history[i].op.proc);
      }
    }
    if p :| Won(s, p) && s.procs[p].key == key {
      var i :| 0 <= i < |s.history| && IsEffectOf(s, s.history[i], p);
      InsertedKeysStay(s.history, i, key);
    }
    if i :| 0 <= i < |s.history| && s.history[i].op.OrphanInsert? && s.history[i].op.key == key {
      InsertedKeysStay(s.history, i, key);
    }
  }

  /** Effect i put the key into the table. */
  ghost predicate CreatesRow(history: seq<Effect>, i: int, key: Id) {
    0 <= i < |history| && Inserts(history[i].op, key) && key !in Replay(history[..i])
  }

  lemma {:induction false} SomeEffectCreates(history: seq<Effect>, key: Id)
    requires Sequential(history) && key in Replay(history)
    ensures exists i :: CreatesRow(history, i, key)
  {
    var n := |history| - 1;
    if key in Replay(history[..n]) {
      SomeEffectCreates(history[..n], key);
      var i :| CreatesRow(history[..n], i, key);
      assert history[..n][..i] == history[..i];
      assert CreatesRow(history, i, key);
    } else {
      assert CreatesRow(history, n, key);
    }
  }

  /** Once created, a row is there before every later effect, so no other effect creates it. */
  lemma OneEffectCreates(history: seq<Effect>, i: nat, j: nat, key: Id)
    requires CreatesRow(history, i, key) && CreatesRow(history, j, key)
    ensures i == j
  {
    if i < j {
      InsertedKeysStay(history[..j], i, key);
    } else if j < i {
      InsertedKeysStay(history[..i], j, key);
    }
  }

  lemma {:induction false} AnswersInSequence(history: seq<Effect>, i: nat)
    requires Sequential(history) && i < |history| && history[i].op.CheckOp?
    ensures history[i].op.answer == AtomicCheck(Replay(history[..i]), history[i].op.key, history[i].op.row).answer
  {
    var n := |history| - 1;
    if i < n {
      AnswersInSequence(history[..n], i);
      assert history[..n][..i] == history[..i];
    }
  }

  /** The insert that created the row lost its reply. */
  ghost predicate CreatedByOrphan(s: System, key: Id) {
    exists i :: CreatesRow(s.history, i, key) && s.history[i].op.OrphanInsert?
  }

  /** A key in the table has its winner exactly when the insert that created its row was answered to
      its check; inserts of the key that lost their replies later make no difference. */
  lemma WinnerExactly(ttlHours: nat, es: seq<Event>, key: Id)
    requires NoDelete(es) && key in Run(ttlHours, es).rows
    ensures HasWinner(Run(ttlHours, es), key) <==> !CreatedByOrphan(Run(ttlHours, es), key)
  {
    GuardIsLinearizable(ttlHours, es);
    WinnerIn(Run(ttlHours, es), key);
  }

  lemma WinnerIn(s: System, key: Id)
    requires Linearized(s) && key in s.rows
    ensures HasWinner(s, key) <==> !CreatedByOrphan(s, key)
  {
    SomeEffectCreates(s.history, key);
    var i :| CreatesRow(s.history, i, key);
    if s.history[i].op.CheckOp? {
      assert IsEffectOf(s, s.history[i], s.history[i].op.proc);
      assert Won(s, s.history[i].op.proc);
    }
    if p :| Won(s, p) && s.procs[p].key == key {
      WinnerCreates(s, p);
      var j :| CreatesRow(s.history, j, key) && s.history[j].op.CheckOp?;
      OneEffectCreates(s.history, i, j, key);
    }
    if j :| CreatesRow(s.history, j, key) && s.history[j].op.OrphanInsert? {
      OneEffectCreates(s.history, i, j, key);
    }
  }

  lemma WinnerCreates(s: System, p: nat)
    requires Linearized(s) && Won(s, p)
    ensures exists j :: CreatesRow(s.history, j, s.procs[p].key) && s.history[j].op.CheckOp?
  {
    var j :| 0 <= j < |s.history| && IsEffectOf(s, s.history[j], p);
    AnswersInSequence(s.history, j);
    assert CreatesRow(s.history, j, s.procs[p].key);
  }

  // ---------------------------------------------------------------- when a record is completed

  /** Effect i completes the record: it comes after the record's creation and reports a final status. */
  ghost predicate Finishes(history: seq<Effect>, i: int, key: Id) {
    && 0 <= i < |history| && history[i].op.CompleteOp? && history[i].op.key == key
    && !history[i].op.status.PROCESSING? && key in Replay(history[..i])
  }

  ghost predicate Finished(history: seq<Effect>, key: Id) {
    exists i :: Finishes(history, i, key)
  }

  lemma FinishedSnoc(history: seq<Effect>, x: Effect, key: Id)
    ensures Finished(history + [x], key) <==>
            Finished(history, key)
            || (x.op.CompleteOp? && x.op.key == key && !x.op.status.PROCESSING? && key in Replay(history))
  {
    assert (history + [x])[..|history|] == history;
    forall i | 0 <= i < |history| ensures Finishes(history + [x], i, key) <==> Finishes(history, i, key) {
      assert (history + [x])[..i] == history[..i];
    }
    if i :| Finishes(history, i, key) {
      assert Finishes(history + [x], i, key);
    }
    if i :| Finishes(history + [x], i, key) {
      assert i == |history| || Finishes(history, i, key);
    }
    if x.op.CompleteOp? && x.op.key == key && !x.op.status.PROCESSING? && key in Replay(history) {
      assert Finishes(history + [x], |history|, key);
    }
  }

  /** New records are PROCESSING. */
  predicate InsertsProcessing(history: seq<Effect>) {
    forall i :: 0 <= i < |history| ==>
                  (history[i].op.CheckOp? && history[i].op.answer.New?) || history[i].op.OrphanInsert? ==>
                    history[i].op.row.status.PROCESSING?
  }

  lemma {:induction false} FinishedExactly(history: seq<Effect>, key: Id)
    requires Sequential(history) && InsertsProcessing(history) && key in Replay(history)
    ensures Replay(history)[key].status.PROCESSING? <==> !Finished(history, key)
  {
    var n := |history| - 1;
    var before, x := history[..n], history[n];
    assert before + [x] == history;
    FinishedSnoc(before, x, key);
    if key in Replay(before) {
      FinishedExactly(before, key);
    } else {
      NothingFinishedBefore(before, key);
    }
  }

  /** Of the effects that report a final status for the record, i is the first. */
  ghost predicate FinishesFirst(history: seq<Effect>, i: int, key: Id) {
    Finishes(history, i, key) && forall j :: Finishes(history, j, key) ==> i <= j
  }

  ghost predicate FinishedWith(history: seq<Effect>, key: Id, row: Row) {
    exists i :: FinishesFirst(history, i, key)
                && row.status == history[i].op.status && row.payload == history[i].op.payload
  }

  lemma FirstFinishStays(before: seq<Effect>, x: Effect, i: int, key: Id)
    requires FinishesFirst(before, i, key)
    ensures FinishesFirst(before + [x], i, key)
  {
    forall j | Finishes(before + [x], j, key) ensures i <= j {
      assert j == |before| || (before + [x])[..j] == before[..j];
      assert j == |before| || Finishes(before, j, key);
    }
    assert (before + [x])[..i] == before[..i];
  }

  lemma FirstFinishIsLast(before: seq<Effect>, x: Effect, key: Id)
    requires !Finished(before, key) && Finished(before + [x], key)
    ensures FinishesFirst(before + [x], |before|, key)
  {
    forall j | 0 <= j < |before| ensures Finishes(before + [x], j, key) <==> Finishes(before, j, key) {
      assert (before + [x])[..j] == before[..j];
    }
  }

  /** A finished record has the status and the payload of the first completion that finished it. */
  lemma {:induction false} FirstCompletionCounts(history: seq<Effect>, key: Id)
    requires Sequential(history) && InsertsProcessing(history)
    requires key in Replay(history) && Finished(history, key)
    ensures FinishedWith(history, key, Replay(history)[key])
  {
    var n := |history| - 1;
    var before, x := history[..n], history[n];
    assert before + [x] == history;
    FinishedSnoc(before, x, key);
    if !Finished(before, key) {
      FirstFinishIsLast(before, x, key);
      if key in Replay(before) {
        FinishedExactly(before, key);
      }
    } else if key in Replay(before) {
      FinishedExactly(before, key);
      FirstCompletionCounts(before, key);
      var i :| FinishesFirst(before, i, key)
               && Replay(before)[key].status == before[i].op.status
               && Replay(before)[key].payload == before[i].op.payload;
      FirstFinishStays(before, x, i, key);
    } else {
      NothingFinishedBefore(before, key);
    }
  }

  lemma {:induction false} ReplayKeepsKeys(history: seq<Effect>, i: nat, key: Id)
    requires i <= |history| && key in Replay(history[..i])
    ensures key in Replay(history)
    decreases |history|
  {
    if i < |history| {
      var n := |history| - 1;
      assert history[..n][..i] == history[..i];
      ReplayKeepsKeys(history[..n], i, key);
    } else {
      assert history[..i] == history;
    }
  }

  lemma NothingFinishedBefore(history: seq<Effect>, key: Id)
    requires key !in Replay(history)
    ensures !Finished(history, key)
  {
    if i :| Finishes(history, i, key) {
      ReplayKeepsKeys(history, i, key);
    }
  }

  lemma NextInsertsProcessing(ttlHours: nat, s: System, e: Event)
    requires InsertsProcessing(s.history)
    ensures InsertsProcessing(Next(ttlHours, s, e).history)
  {
  }

  lemma {:induction false} InsertsAreProcessing(ttlHours: nat, es: seq<Event>)
    ensures InsertsProcessing(Run(ttlHours, es).history)
  {
    if es != [] {
      InsertsAreProcessing(ttlHours, es[..|es| - 1]);
      NextInsertsProcessing(ttlHours, Run(ttlHours, es[..|es| - 1]), es[|es| - 1]);
    }
  }

  /** A record has left PROCESSING exactly when, after its creation, a completion of its very key
      with a final status took effect, and it has the status and payload of the first of them. */
  lemma CompletedExactly(ttlHours: nat, es: seq<Event>, key: Id)
    requires NoDelete(es) && key in Run(ttlHours, es).rows
    ensures var s := Run(ttlHours, es);
            if Finished(s.history, key) then
              FinishedWith(s.history, key, s.rows[key]) && !s.rows[key].status.PROCESSING?
            else s.rows[key].status.PROCESSING?
  {
    var s := Run(ttlHours, es);
    GuardIsLinearizable(ttlHours, es);
    InsertsAreProcessing(ttlHours, es);
    FinishedExactly(s.history, key);
    if Finished(s.history, key) {
      FirstCompletionCounts(s.history, key);
    }
  }

  // ---------------------------------------------------------------- with deletion at expiry

  /** When the table may drop the row of this win, in milliseconds. */
  function ExpiryOf(ttlHours: nat, w: Win): int {
    NewRow(w.readAt, ttlHours).expiresAt * 1000
  }

  /** Each win's row is still there, no older than the win, or the win's expiry has passed. */
  ghost predicate WinsCovered(ttlHours: nat, s: System) {
    forall i :: 0 <= i < |s.wins| ==>
                  || ExpiryOf(ttlHours, s.wins[i]) <= s.clock
                  || (&& s.wins[i].key in s.rows
                      && ExpiryOf(ttlHours, s.wins[i]) <= s.rows[s.wins[i].key].expiresAt * 1000)
  }

  ghost predicate WinsApart(ttlHours: nat, s: System) {
    && (forall i :: 0 <= i < |s.wins| ==> s.wins[i].insertedAt <= s.clock)
    && (forall i, j :: 0 <= i < j < |s.wins| && s.wins[i].key == s.wins[j].key ==>
          ExpiryOf(ttlHours, s.wins[i]) <= s.wins[j].insertedAt)
  }

  lemma NextKeepsWinsCovered(ttlHours: nat, s: System, e: Event)
    requires WinsCovered(ttlHours, s)
    ensures WinsCovered(ttlHours, Next(ttlHours, s, e))
  {
  }

  lemma NextKeepsWinsApart(ttlHours: nat, s: System, e: Event)
    requires WinsCovered(ttlHours, s) && WinsApart(ttlHours, s)
    ensures WinsCovered(ttlHours, Next(ttlHours, s, e)) && WinsApart(ttlHours, Next(ttlHours, s, e))
  {
    NextKeepsWinsCovered(ttlHours, s, e);
  }

  lemma {:induction false} WinsStayApart(ttlHours: nat, es: seq<Event>)
    ensures WinsCovered(ttlHours, Run(ttlHours, es)) && WinsApart(ttlHours, Run(ttlHours, es))
  {
    if es != [] {
      var n := |es| - 1;
      WinsStayApart(ttlHours, es[..n]);
      NextKeepsWinsApart(ttlHours, Run(ttlHours, es[..n]), es[n]);
    }
  }

  /** With rows deleted once their expiry has passed, two "new" verdicts for one key are a full TTL
      apart, from the first one's clock reading to the second one's insert, up to the second lost
      to rounding down. */
  lemma NewVerdictsATtlApart(ttlHours: nat, es: seq<Event>, i: nat, j: nat)
    requires var wins := Run(ttlHours, es).wins; i < j < |wins| && wins[i].key == wins[j].key
    ensures var wins := Run(ttlHours, es).wins;
            wins[j].insertedAt - wins[i].readAt > ttlHours * 3600 * 1000 - 1000
  {
    WinsStayApart(ttlHours, es);
  }

  /** A row lives for its TTL, from the clock reading of its insert, and no longer: a check wins, the
      table drops the row as soon as it may, and the next check wins again. */
  function OutlivedRow(ttlHours: nat, key: Id): seq<Event> {
    [Invoke(0, key), Find(0, true), Insert(0, 0, Ended(Done)),
     Tick(ttlHours * 3600 * 1000), Delete(key),
     Invoke(1, key), Find(1, true), Insert(1, 0, Ended(Done))]
  }

  lemma RunStep(ttlHours: nat, es: seq<Event>, k: nat)
    requires k < |es|
    ensures Run(ttlHours, es[..k + 1]) == Next(ttlHours, Run(ttlHours, es[..k]), es[k])
  {
    assert es[..k + 1][..k] == es[..k];
  }

  lemma OutlivedRowWins(ttlHours: nat, key: Id)
    ensures var s := Run(ttlHours, OutlivedRow(ttlHours, key)[..3]);
            && s.procs == map[0 := Proc(key, Answered(New, 2), 0)] && s.clock == 0
            && s.steps == 3 && s.rows == map[key := NewRow(0, ttlHours)] && s.wins == [Win(0, key, 0, 0)]
  {
    var es := OutlivedRow(ttlHours, key);
    assert Run(ttlHours, es[..0]) == START;
    RunStep(ttlHours, es, 0);
    assert Run(ttlHours, es[..1]).procs == map[0 := Proc(key, Finding, 0)];
    RunStep(ttlHours, es, 1);
    assert Run(ttlHours, es[..2]).procs == map[0 := Proc(key, Inserting, 0)];
    RunStep(ttlHours, es, 2);
  }

  lemma OutlivedRowGoes(ttlHours: nat, key: Id)
    ensures var s := Run(ttlHours, OutlivedRow(ttlHours, key)[..5]);
            && s.procs == map[0 := Proc(key, Answered(New, 2), 0)] && s.clock == ttlHours * 3600 * 1000
            && s.steps == 5 && key !in s.rows && s.wins == [Win(0, key, 0, 0)]
  {
    var es := OutlivedRow(ttlHours, key);
    OutlivedRowWins(ttlHours, key);
    RunStep(ttlHours, es, 3);
    RunStep(ttlHours, es, 4);
  }

  lemma KeyAskedAgain(ttlHours: nat, key: Id)
    ensures var s := Run(ttlHours, OutlivedRow(ttlHours, key)[..6]);
            && s.procs == map[0 := Proc(key, Answered(New, 2), 0), 1 := Proc(key, Finding, 5)]
            && s.clock == ttlHours * 3600 * 1000 && key !in s.rows && s.wins == [Win(0, key, 0, 0)]
  {
    OutlivedRowGoes(ttlHours, key);
    RunStep(ttlHours, OutlivedRow(ttlHours, key), 5);
  }

  lemma KeyNotFound(ttlHours: nat, key: Id)
    ensures var s := Run(ttlHours, OutlivedRow(ttlHours, key)[..7]);
            && s.procs == map[0 := Proc(key, Answered(New, 2), 0), 1 := Proc(key, Inserting, 5)]
            && s.clock == ttlHours * 3600 * 1000 && key !in s.rows && s.wins == [Win(0, key, 0, 0)]
  {
    KeyAskedAgain(ttlHours, key);
    RunStep(ttlHours, OutlivedRow(ttlHours, key), 6);
  }

  /** The bound above is met: for every TTL two "new" verdicts of a key can be no more than the TTL
      apart. */
  lemma TtlBoundIsMet(ttlHours: nat, key: Id)
    ensures var s := Run(ttlHours, OutlivedRow(ttlHours, key));
            && Won(s, 0) && Won(s, 1) && s.procs[0].key == key && s.procs[1].key == key
            && |s.wins| == 2 && s.wins[1].insertedAt - s.wins[0].readAt == ttlHours * 3600 * 1000
  {
    var es := OutlivedRow(ttlHours, key);
    KeyNotFound(ttlHours, key);
    RunStep(ttlHours, es, 7);
    assert es[..8] == es;
  }

  /** A check that becomes "new" in this step is recorded as a win, and wins are never erased. */
  lemma NewIsRecorded(ttlHours: nat, s: System, e: Event, p: nat)
    requires Won(Next(ttlHours, s, e), p)
    ensures var s' := Next(ttlHours, s, e);
            if Won(s, p) then s.wins <= s'.wins && s'.procs[p].key == s.procs[p].key
            else |s'.wins| == |s.wins| + 1 && s'.wins[|s.wins|].proc == p && s'.wins[|s.wins|].key == s'.procs[p].key
  {
  }

  /** Every "new" verdict is recorded as a win of its check. */
  lemma {:induction false} VerdictsAreWins(ttlHours: nat, es: seq<Event>, p: nat)
    requires Won(Run(ttlHours, es), p)
    ensures var s := Run(ttlHours, es);
            exists i :: 0 <= i < |s.wins| && s.wins[i].proc == p && s.wins[i].key == s.procs[p].key
  {
    var n := |es| - 1;
    var before := Run(ttlHours, es[..n]);
    NewIsRecorded(ttlHours, before, es[n], p);
    if Won(before, p) {
      VerdictsAreWins(ttlHours, es[..n], p);
      var i :| 0 <= i < |before.wins| && before.wins[i].proc == p && before.wins[i].key == before.procs[p].key;
      assert Run(ttlHours, es).wins[i] == before.wins[i];
    } else {
      assert Run(ttlHours, es).wins[|before.wins|].proc == p;
    }
  }
}
