/**
 The switch's transaction table, payment-switch/app/dynamo.py.

 update_state carries no condition: nothing here stops a caller from moving a row backwards, and an
 update of a missing row creates one.
 */
module TxnStore {
  import opened Options
  import opened Records

  /** An item; `key` and `amount` are missing from an item that only an update created. */
  datatype Row = Row(
    key: Option<Id>,
    amount: Option<int>,
    state: TxnState,
    bankCode: Option<string>,
    bankRrn: Option<string>,
    error: Option<string>)

  type Rows = map<Id, Row>

  function FreshRow(key: Id, amount: int): Row {
    Row(Some(key), Some(amount), INITIATED, None, None, None)
  }

  /** The arguments of update_state; attributes given as None are left alone. */
  datatype Change = Change(
    state: TxnState, bankRrn: Option<string>, error: Option<string>, bankCode: Option<string>)

  function Or<T>(update: Option<T>, old_: Option<T>): Option<T> {
    if update.Some? then update else old_
  }

  function Changed(row: Row, c: Change): Row {
    Row(row.key, row.amount, c.state, Or(c.bankCode, row.bankCode), Or(c.bankRrn, row.bankRrn), Or(c.error, row.error))
  }

  function Updated(rows: Rows, id: Id, c: Change): Rows {
    rows[id := Changed(if id in rows then rows[id] else Row(None, None, c.state, None, None, None), c)]
  }

  predicate Matches(rows: Rows, id: Id, key: Id) {
    id in rows && rows[id].key == Some(key)
  }

  /** A one-page scan returns every item once, in any order. */
  ghost predicate IsScan(rows: Rows, order: seq<Id>) {
    forall id :: id in order <==> id in rows
  }

  class TxnTable {
    var rows: Rows

    constructor ()
      ensures rows == map[]
    {
      rows := map[];
    }

    method WriteTxn(id: Id, key: Id, amount: int)
      modifies this
      ensures rows == old(rows)[id := FreshRow(key, amount)]
      ensures rows[id] == Row(Some(key), Some(amount), INITIATED, None, None, None)
    {
      rows := rows[id := FreshRow(key, amount)];
    }

    /** A given attribute is written and any other left as it is; an update of a missing item creates
        it with nothing else. */
    method UpdateState(id: Id, c: Change)
      modifies this
      ensures rows == Updated(old(rows), id, c)
      ensures id in rows && rows[id].state == c.state
      ensures id in old(rows) ==>
                && rows[id].key == old(rows)[id].key && rows[id].amount == old(rows)[id].amount
                && (c.bankCode.None? ==> rows[id].bankCode == old(rows)[id].bankCode)
                && (c.bankRrn.None? ==> rows[id].bankRrn == old(rows)[id].bankRrn)
                && (c.error.None? ==> rows[id].error == old(rows)[id].error)
      ensures id !in old(rows) ==>
                && rows[id].key == None && rows[id].amount == None
                && (c.bankCode.None? ==> rows[id].bankCode == None)
                && (c.bankRrn.None? ==> rows[id].bankRrn == None)
                && (c.error.None? ==> rows[id].error == None)
      ensures c.bankCode.Some? ==> rows[id].bankCode == c.bankCode
      ensures c.bankRrn.Some? ==> rows[id].bankRrn == c.bankRrn
      ensures c.error.Some? ==> rows[id].error == c.error
      ensures rows.Keys == old(rows).Keys + {id}
      ensures forall other :: other in old(rows) && other != id ==> other in rows && rows[other] == old(rows)[other]
    {
      var row := if id in rows then rows[id] else Row(None, None, c.state, None, None, None);
      row := row.(state := c.state);
      if c.bankRrn.Some? {
        row := row.(bankRrn := c.bankRrn);
      }
      if c.bankCode.Some? {
        row := row.(bankCode := c.bankCode);
      }
      if c.error.Some? {
        row := row.(error := c.error);
      }
      rows := rows[id := row];
    }

    /** The whole table in one page, in some order. */
    method Scan() returns (order: seq<Id>)
      ensures IsScan(rows, order)
    {
      order := [];
      var rest := rows.Keys;
      while rest != {}
        invariant forall id :: id in order || id in rest <==> id in rows
        decreases rest
      {
        var id :| id in rest;
        order := order + [id];
        rest := rest - {id};
      }
    }

    /** The first scanned item with this key, or None when the whole table holds none. */
    method GetTxnByIdempotencyKey(key: Id) returns (found: Option<Id>)
      ensures found.Some? ==> Matches(rows, found.value, key)
      ensures found.None? <==> forall id :: !Matches(rows, id, key)
    {
      var order := Scan();
      for i := 0 to |order|
        invariant forall j :: 0 <= j < i ==> !Matches(rows, order[j], key)
      {
        if rows[order[i]].key == Some(key) {
          assert Matches(rows, order[i], key);
          return Some(order[i]);
        }
      }
      forall id ensures !Matches(rows, id, key) {
        if id in rows {
          assert id in order;
        }
      }
      return None;
    }
  }
}
