/** The paged query of the table wrapper, shared/metrics/dynamo_tracker.py. */
module Pagination {
  import opened Options

  /** One query response; `last` is absent on the last page, and a page may hold no items. */
  datatype Page<T> = Page(items: seq<T>, last: Option<nat>)

  /** A page that is not the last names a position the next query starts after.  The page that
      reaches the end may still name one; the query from there finds nothing. */
  class Table<T> {
    const rows: seq<T>
    const pages: nat -> nat   // how many rows the query that starts at a position looks at
    const trailing: bool      // whether the page that reaches the end names a position all the same
    const keep: T -> bool     // the filter: a page of rows that all fail it is empty

    constructor (rows: seq<T>, pages: nat -> nat, trailing: bool, keep: T -> bool)
      ensures this.rows == rows && this.pages == pages && this.trailing == trailing && this.keep == keep
    {
      this.rows, this.pages, this.trailing, this.keep := rows, pages, trailing, keep;
    }

    function Kept(rows: seq<T>): seq<T> {
      if rows == [] then []
      else Kept(rows[..|rows| - 1]) + if keep(rows[|rows| - 1]) then [rows[|rows| - 1]] else []
    }

    lemma {:induction false} KeptConcat(a: seq<T>, b: seq<T>)
      ensures Kept(a + b) == Kept(a) + Kept(b)
    {
      if b == [] {
        assert a + b == a;
      } else {
        assert (a + b)[..|a + b| - 1] == a + b[..|b| - 1];
        KeptConcat(a, b[..|b| - 1]);
      }
    }

    /** `picked` is made of the rows at these places, in order: those that pass the filter, and no other. */
    ghost predicate Picks(rows: seq<T>, picked: seq<T>, places: seq<nat>) {
      && |picked| == |places|
      && (forall i :: 0 <= i < |places| ==> places[i] < |rows| && picked[i] == rows[places[i]])
      && (forall i, j :: 0 <= i < j < |places| ==> places[i] < places[j])
      && (forall k :: 0 <= k < |rows| ==> (keep(rows[k]) <==> k in places))
    }

    lemma PicksSnoc(rows: seq<T>, picked: seq<T>, places: seq<nat>, row: T)
      requires Picks(rows, picked, places)
      ensures keep(row) ==> Picks(rows + [row], picked + [row], places + [|rows|])
      ensures !keep(row) ==> Picks(rows + [row], picked, places)
    {
      var more, next := rows + [row], if keep(row) then places + [|rows|] else places;
      forall k | 0 <= k < |more| ensures keep(more[k]) <==> k in next {
        if k < |rows| {
          assert more[k] == rows[k];
        }
      }
    }

    lemma {:induction false} KeptPicks(rows: seq<T>) returns (places: seq<nat>)
      ensures Picks(rows, Kept(rows), places)
    {
      if rows == [] {
        places := [];
      } else {
        var n := |rows| - 1;
        places := KeptPicks(rows[..n]);
        PicksSnoc(rows[..n], Kept(rows[..n]), places, rows[n]);
        assert rows[..n] + [rows[n]] == rows;
        if keep(rows[n]) {
          places := places + [n];
        }
      }
    }

    /** Each row that passes the filter is kept as often as it occurs, and no other is kept. */
    lemma {:induction false} KeptCounts(rows: seq<T>, row: T)
      ensures multiset(Kept(rows))[row] == if keep(row) then multiset(rows)[row] else 0
    {
      if rows != [] {
        var n := |rows| - 1;
        KeptCounts(rows[..n], row);
        assert rows == rows[..n] + [rows[n]];
      }
    }

    /** Without a filter every row is kept. */
    lemma {:induction false} AllKept(rows: seq<T>)
      requires forall row :: keep(row)
      ensures Kept(rows) == rows
    {
      if rows != [] {
        AllKept(rows[..|rows| - 1]);
      }
    }

    /** Where the query that starts at `from` stops: after at least one row, at the end at the latest. */
    function EndOf(from: nat): (to: nat)
      requires from <= |rows|
      ensures to <= |rows| && (from < |rows| ==> from < to)
    {
      if from + pages(from) >= |rows| then |rows| else if pages(from) == 0 then from + 1 else from + pages(from)
    }

    method Query(startKey: Option<nat>) returns (page: Page<T>)
      requires startKey.Some? ==> startKey.value <= |rows|
      ensures var from := if startKey.Some? then startKey.value else 0;
              && page.items == Kept(rows[from..EndOf(from)])
              && (page.last == None || page.last == Some(EndOf(from)))
              && (page.last.None? <==> EndOf(from) == |rows| && (trailing ==> from == |rows|))
    {
      var from := if startKey.Some? then startKey.value else 0;
      var to := EndOf(from);
      return Page(Kept(rows[from..to]), if to < |rows| || (trailing && from < |rows|) then Some(to) else None);
    }

    /** All matching rows, in order, however the table cuts its pages and however many are empty. */
    method QueryAll() returns (items: seq<T>)
      ensures items == Kept(rows)
      ensures exists places :: Picks(rows, items, places)
    {
      items := [];
      var lastKey: Option<nat> := None;
      ghost var seen := 0;
      while true
        invariant 0 <= seen <= |rows| && items == Kept(rows[..seen])
        invariant (lastKey == None && seen == 0) || lastKey == Some(seen)
        decreases |rows| - seen
      {
        var response := Query(lastKey);
        assert rows[..EndOf(seen)] == rows[..seen] + rows[seen..EndOf(seen)];
        KeptConcat(rows[..seen], rows[seen..EndOf(seen)]);
        items := items + response.items;
        lastKey := response.last;
        seen := EndOf(seen);
        if lastKey.None? {
          break;
        }
      }
      assert rows[..|rows|] == rows;
      ghost var _ := KeptPicks(rows);
    }
  }
}
