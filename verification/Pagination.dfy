/** Keyset paging, newest first, while the table changes between page fetches. A row is
    its ordering key and its id; a cursor is the last row a page returned (its opaque
    encoding is not part of this model). */
module Pagination {
  import opened Vocabulary

  datatype Row = Row(key: Time, id: nat)

  /** `a` comes strictly before `b`: newer, or as new with a larger id. */
  predicate Precedes(a: Row, b: Row) {
    a.key > b.key || (a.key == b.key && a.id > b.id)
  }

  predicate PastCursor(cursor: Option<Row>, r: Row) {
    cursor.None? || Precedes(cursor.value, r)
  }

  predicate Ordered(rows: seq<Row>) {
    forall i, j :: 0 <= i < j < |rows| ==> Precedes(rows[i], rows[j])
  }

  /** `rows` answers the keyset query on `table`: in order, strictly past the cursor, at
      most `limit` of them, and whatever is missing comes after all of them. */
  ghost predicate Answers(table: set<Row>, cursor: Option<Row>, limit: nat, rows: seq<Row>) {
    && |rows| <= limit && Ordered(rows)
    && (forall i :: 0 <= i < |rows| ==> rows[i] in table && PastCursor(cursor, rows[i]))
    && (forall r :: r in table && PastCursor(cursor, r) && r !in rows ==>
          |rows| == limit && forall i :: 0 <= i < |rows| ==> Precedes(rows[i], r))
  }

  /** `paginate_rows`, on a fetch of `limit + 1` rows. */
  function PaginateRows(rows: seq<Row>, limit: nat): (r: (seq<Row>, Option<Row>))
    ensures r.0 <= rows && |r.0| <= limit
  {
    var page := if |rows| > limit then rows[..limit] else rows;
    (page, if |rows| > limit && page != [] then Some(page[|page| - 1]) else None)
  }

  /** One page fetch: the table as it was then, and the query's answer on it. */
  datatype Fetch = Fetch(table: set<Row>, rows: seq<Row>)

  /** A client that follows `next_cursor` from `cursor` until it is null. */
  ghost predicate Walk(fetches: seq<Fetch>, cursor: Option<Row>, limit: nat) {
    && fetches != [] && Answers(fetches[0].table, cursor, limit + 1, fetches[0].rows)
    && var next := PaginateRows(fetches[0].rows, limit).1;
       if next.None? then |fetches| == 1 else Walk(fetches[1..], next, limit)
  }

  function Returned(fetches: seq<Fetch>, limit: nat): seq<Row> {
    if fetches == [] then [] else PaginateRows(fetches[0].rows, limit).0 + Returned(fetches[1..], limit)
  }

  lemma PrecedesIsTransitive(a: Row, b: Row, c: Row)
    requires Precedes(a, b) && Precedes(b, c)
    ensures Precedes(a, c) && a != c
  {
  }

  lemma PageIsOrdered(rows: seq<Row>, table: set<Row>, cursor: Option<Row>, limit: nat)
    requires Answers(table, cursor, limit + 1, rows)
    ensures Ordered(PaginateRows(rows, limit).0)
    ensures forall i :: 0 <= i < |PaginateRows(rows, limit).0| ==> PastCursor(cursor, PaginateRows(rows, limit).0[i])
  {
  }

  /** A page and then rows past its last one. */
  lemma OrderedConcat(page: seq<Row>, rest: seq<Row>, cursor: Option<Row>)
    requires Ordered(page) && Ordered(rest) && page != []
    requires forall i :: 0 <= i < |page| ==> PastCursor(cursor, page[i])
    requires forall j :: 0 <= j < |rest| ==> PastCursor(Some(page[|page| - 1]), rest[j])
    ensures Ordered(page + rest)
    ensures forall i :: 0 <= i < |page + rest| ==> PastCursor(cursor, (page + rest)[i])
  {
    var last := page[|page| - 1];
    forall i, j | 0 <= i < |page| && 0 <= j < |rest| ensures Precedes(page[i], rest[j]) {
      assert PastCursor(Some(last), rest[j]);
      if i < |page| - 1 { PrecedesIsTransitive(page[i], last, rest[j]); }
    }
    forall j | 0 <= j < |rest| ensures PastCursor(cursor, rest[j]) {
      assert PastCursor(Some(last), rest[j]);
      if cursor.Some? { PrecedesIsTransitive(cursor.value, last, rest[j]); }
    }
  }

  /** Everything returned is past the cursor, in strict order; in particular no row is
      returned twice, whatever happened to the table in between. */
  lemma {:induction false} NothingTwice(fetches: seq<Fetch>, cursor: Option<Row>, limit: nat)
    requires Walk(fetches, cursor, limit) && limit > 0
    ensures Ordered(Returned(fetches, limit))
    ensures forall i :: 0 <= i < |Returned(fetches, limit)| ==> PastCursor(cursor, Returned(fetches, limit)[i])
  {
    var (page, next) := PaginateRows(fetches[0].rows, limit);
    PageIsOrdered(fetches[0].rows, fetches[0].table, cursor, limit);
    if next.Some? {
      NothingTwice(fetches[1..], next, limit);
      OrderedConcat(page, Returned(fetches[1..], limit), cursor);
    } else {
      assert Returned(fetches[1..], limit) == [];
      assert Returned(fetches, limit) == page;
    }
    hide Answers, PastCursor, Ordered;
  }

  lemma SplitByPage(rows: seq<Row>, table: set<Row>, cursor: Option<Row>, limit: nat, r: Row)
    requires Answers(table, cursor, limit + 1, rows) && limit > 0 && r in table && PastCursor(cursor, r)
    ensures var (page, next) := PaginateRows(rows, limit);
            r in page || (next.Some? && PastCursor(next, r))
  {
    var (page, next) := PaginateRows(rows, limit);
    if |rows| <= limit {
      assert r in rows;
    } else {
      assert next == Some(rows[limit - 1]);
      if r in rows {
        var i :| 0 <= i < |rows| && rows[i] == r;
        if i < limit { assert page[i] == r; }
      }
    }
  }

  /** Every row that was in the table at each fetch is returned, and exactly once. */
  lemma {:induction false} NothingLost(fetches: seq<Fetch>, cursor: Option<Row>, limit: nat, r: Row)
    requires Walk(fetches, cursor, limit) && limit > 0 && PastCursor(cursor, r)
    requires forall i :: 0 <= i < |fetches| ==> r in fetches[i].table
    ensures r in Returned(fetches, limit)
  {
    var (page, next) := PaginateRows(fetches[0].rows, limit);
    SplitByPage(fetches[0].rows, fetches[0].table, cursor, limit, r);
    if r !in page {
      NothingLost(fetches[1..], next, limit, r);
    }
  }

  /** Paging from the start until the cursor is null, under arbitrary inserts and
      deletes between the pages: strict order, no row twice, every row that stayed
      exactly once, and nothing that was never there. */
  lemma PagingIsExact(fetches: seq<Fetch>, limit: nat, r: Row)
    requires Walk(fetches, None, limit) && limit > 0
    ensures var all := Returned(fetches, limit);
            && Ordered(all)
            && ((forall i :: 0 <= i < |fetches| ==> r in fetches[i].table) ==> multiset(all)[r] == 1)
            && (r in all ==> exists i :: 0 <= i < |fetches| && r in fetches[i].table)
  {
    NothingTwice(fetches, None, limit);
    var all := Returned(fetches, limit);
    if forall i :: 0 <= i < |fetches| ==> r in fetches[i].table {
      NothingLost(fetches, None, limit, r);
      OnceInOrdered(all, r);
    }
    if r in all { ReturnedWasThere(fetches, None, limit, r); }
  }

  lemma OnceInOrdered(rows: seq<Row>, r: Row)
    requires Ordered(rows) && r in rows
    ensures multiset(rows)[r] == 1
  {
    var i :| 0 <= i < |rows| && rows[i] == r;
    assert rows == rows[..i] + [r] + rows[i + 1..];
    assert r !in rows[..i] && r !in rows[i + 1..];
  }

  lemma {:induction false} ReturnedWasThere(fetches: seq<Fetch>, cursor: Option<Row>, limit: nat, r: Row)
    requires Walk(fetches, cursor, limit) && r in Returned(fetches, limit)
    ensures exists i :: 0 <= i < |fetches| && r in fetches[i].table
  {
    var (page, next) := PaginateRows(fetches[0].rows, limit);
    assert next.None? ==> fetches[1..] == [];
    if r in page {
      var k :| 0 <= k < |page| && page[k] == r;
      assert fetches[0].rows[k] == r;
    } else {
      ReturnedWasThere(fetches[1..], next, limit, r);
      var i :| 0 <= i < |fetches[1..]| && r in fetches[1..][i].table;
      assert r in fetches[i + 1].table;
    }
  }

  /** The bound on `limit` matters: at limit 0 the walk ends at once, with nothing. */
  lemma LimitZeroReturnsNothing(fetches: seq<Fetch>)
    requires Walk(fetches, None, 0)
    ensures |fetches| == 1 && Returned(fetches, 0) == []
  {
    assert Returned(fetches[1..], 0) == [];
  }
}
