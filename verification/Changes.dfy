/** Reading the changes of an endpoint database: limited reads per table, merged and truncated. */
module Changes {
  import opened Wire
  import opened Endpoint

  function RowAt(k: RowKey, d: Data): Row
    requires HasRev(d)
  {
    Row(k.table, RevOf(d), d)
  }

  /** r is a row of the database with a revision above the cursor. */
  ghost predicate Reads(db: Db, cursor: int, r: Row)
    requires Issued(db)
  {
    r.rev > cursor && exists k :: k in db.rows && RowAt(k, db.rows[k]) == r
  }

  predicate ByRev(rows: seq<Row>) {
    forall i, j | 0 <= i < j < |rows| :: rows[i].rev < rows[j].rev
  }

  predicate AllBelow(rows: seq<Row>, rev: int) {
    forall i | 0 <= i < |rows| :: rows[i].rev < rev
  }

  /** The `limit` rows of lowest revision above the cursor, lowest first. */
  ghost predicate IsBatch(db: Db, cursor: int, limit: nat, rows: seq<Row>)
    requires Issued(db)
  {
    && |rows| <= limit
    && ByRev(rows)
    && (forall i | 0 <= i < |rows| :: Reads(db, cursor, rows[i]))
    && (forall k | k in db.rows && RevOf(db.rows[k]) > cursor ::
          RowAt(k, db.rows[k]) in rows || (|rows| == limit && AllBelow(rows, RevOf(db.rows[k]))))
  }

  lemma SameRevSameRow(db: Db, cursor: int, a: Row, b: Row)
    requires Revisioned(db) && Reads(db, cursor, a) && Reads(db, cursor, b) && a.rev == b.rev
    ensures a == b
  {
    var j :| j in db.rows && RowAt(j, db.rows[j]) == a;
    var k :| k in db.rows && RowAt(k, db.rows[k]) == b;
  }

  lemma RowsAgree(db: Db, cursor: int, limit: nat, a: seq<Row>, b: seq<Row>, i: nat)
    requires Revisioned(db) && IsBatch(db, cursor, limit, a) && IsBatch(db, cursor, limit, b)
    requires i < |a| && i <= |b| && a[..i] == b[..i]
    ensures i < |b| && b[i].rev <= a[i].rev
  {
    assert Reads(db, cursor, a[i]);
    var k :| k in db.rows && RowAt(k, db.rows[k]) == a[i];
    forall j | 0 <= j < i ensures b[j] == a[j] {
      assert a[..i][j] == b[..i][j];
    }
    if a[i] in b {
      var j :| 0 <= j < |b| && b[j] == a[i];
    } else {
      assert |b| == limit && AllBelow(b, a[i].rev);
    }
  }

  lemma {:induction false} PrefixesAgree(db: Db, cursor: int, limit: nat, a: seq<Row>, b: seq<Row>, i: nat)
    requires Revisioned(db) && IsBatch(db, cursor, limit, a) && IsBatch(db, cursor, limit, b)
    requires i <= |a| && i <= |b| && a[..i] == b[..i]
    ensures a == b
    decreases |a| - i
  {
    if i < |a| {
      RowsAgree(db, cursor, limit, a, b, i);
      RowsAgree(db, cursor, limit, b, a, i);
      SameRevSameRow(db, cursor, a[i], b[i]);
      PrefixesAgree(db, cursor, limit, a, b, i + 1);
    } else if i < |b| {
      RowsAgree(db, cursor, limit, b, a, i);
    }
  }

  /** There is only one such batch, so what ChangesSince reads does not depend on how it reads. */
  lemma BatchIsUnique(db: Db, cursor: int, limit: nat, a: seq<Row>, b: seq<Row>)
    requires Revisioned(db) && IsBatch(db, cursor, limit, a) && IsBatch(db, cursor, limit, b)
    ensures a == b
  {
    PrefixesAgree(db, cursor, limit, a, b, 0);
  }

  // ---------------------------------------------------------------------------------------------
  // One table

  function OfTable(db: Db, t: Table): (part: Db) {
    db.(rows := map k | k in db.rows && k.table == t :: db.rows[k])
  }

  /** The row of the table with the lowest revision above `after`. */
  method Lowest(db: Db, t: Table, after: int) returns (found: bool, best: RowKey)
    requires Issued(db)
    ensures found ==> best in db.rows && best.table == t && RevOf(db.rows[best]) > after
    ensures found ==> forall k | k in db.rows && k.table == t && RevOf(db.rows[k]) > after :: RevOf(db.rows[best]) <= RevOf(db.rows[k])
    ensures !found ==> forall k | k in db.rows && k.table == t :: RevOf(db.rows[k]) <= after
  {
    found, best := false, RowKey(t, Null);
    var todo := db.rows.Keys;
    while todo != {}
      invariant todo <= db.rows.Keys
      invariant found ==> best in db.rows && best.table == t && RevOf(db.rows[best]) > after
      invariant found ==> forall k | k in db.rows && k !in todo && k.table == t && RevOf(db.rows[k]) > after ::
        RevOf(db.rows[best]) <= RevOf(db.rows[k])
      invariant !found ==> forall k | k in db.rows && k !in todo && k.table == t :: RevOf(db.rows[k]) <= after
      decreases todo
    {
      var k :| k in todo;
      var rev := RevOf(db.rows[k]);
      if k.table == t && rev > after && (!found || rev < RevOf(db.rows[best])) {
        found, best := true, k;
      }
      todo := todo - {k};
    }
  }

  lemma PartRevisioned(db: Db, t: Table)
    requires Revisioned(db)
    ensures Revisioned(OfTable(db, t))
  {
  }

  /** All rows with revisions up to `last` were read, lowest first. */
  ghost predicate ReadUpTo(db: Db, cursor: int, rows: seq<Row>, last: int)
    requires Issued(db)
  {
    && last >= cursor && ByRev(rows) && AllBelow(rows, last + 1)
    && (forall i | 0 <= i < |rows| :: Reads(db, cursor, rows[i]))
    && (forall k | k in db.rows && cursor < RevOf(db.rows[k]) <= last :: RowAt(k, db.rows[k]) in rows)
  }

  lemma ReadNext(db: Db, cursor: int, rows: seq<Row>, last: int, best: RowKey)
    requires Revisioned(db) && ReadUpTo(db, cursor, rows, last)
    requires best in db.rows && RevOf(db.rows[best]) > last
    requires forall k | k in db.rows && RevOf(db.rows[k]) > last :: RevOf(db.rows[best]) <= RevOf(db.rows[k])
    ensures ReadUpTo(db, cursor, rows + [RowAt(best, db.rows[best])], RevOf(db.rows[best]))
  {
    var rev := RevOf(db.rows[best]);
    var rows' := rows + [RowAt(best, db.rows[best])];
    assert Reads(db, cursor, RowAt(best, db.rows[best]));
    forall k | k in db.rows && cursor < RevOf(db.rows[k]) <= rev ensures RowAt(k, db.rows[k]) in rows' {
      if RevOf(db.rows[k]) <= last {
        assert RowAt(k, db.rows[k]) in rows;
      } else {
        assert k == best;
        assert rows'[|rows|] == RowAt(best, db.rows[best]);
      }
    }
  }

  lemma ReadIsBatch(db: Db, cursor: int, limit: nat, rows: seq<Row>, last: int)
    requires Issued(db) && ReadUpTo(db, cursor, rows, last) && |rows| <= limit
    requires |rows| == limit || forall k | k in db.rows :: RevOf(db.rows[k]) <= last
    ensures IsBatch(db, cursor, limit, rows)
  {
    forall k | k in db.rows && RevOf(db.rows[k]) > cursor
      ensures RowAt(k, db.rows[k]) in rows || (|rows| == limit && AllBelow(rows, RevOf(db.rows[k])))
    {
    }
  }

  /** SELECT ... WHERE rev > cursor ORDER BY rev LIMIT limit. */
  method Query(db: Db, t: Table, cursor: int, limit: nat) returns (rows: seq<Row>)
    requires Revisioned(db)
    ensures Revisioned(OfTable(db, t)) && IsBatch(OfTable(db, t), cursor, limit, rows)
  {
    PartRevisioned(db, t);
    ghost var part := OfTable(db, t);
    rows := [];
    var last := cursor;
    while |rows| < limit
      invariant |rows| <= limit && ReadUpTo(part, cursor, rows, last)
    {
      var found, best := Lowest(db, t, last);
      if !found {
        break;
      }
      ReadNext(part, cursor, rows, last, best);
      rows := rows + [RowAt(best, db.rows[best])];
      last := RevOf(db.rows[best]);
    }
    ReadIsBatch(part, cursor, limit, rows, last);
  }

  // ---------------------------------------------------------------------------------------------
  // Merging

  /** Inserts a row into rows ordered by revision. */
  function Place(rows: seq<Row>, r: Row): seq<Row> {
    if rows == [] || rows[|rows| - 1].rev <= r.rev then rows + [r]
    else Place(rows[..|rows| - 1], r) + [rows[|rows| - 1]]
  }

  function SortByRev(rows: seq<Row>): seq<Row> {
    if rows == [] then [] else Place(SortByRev(rows[..|rows| - 1]), rows[|rows| - 1])
  }

  predicate NoRev(rows: seq<Row>, rev: int) {
    forall i | 0 <= i < |rows| :: rows[i].rev != rev
  }

  predicate DistinctRevs(rows: seq<Row>) {
    forall i, j | 0 <= i < j < |rows| :: rows[i].rev != rows[j].rev
  }

  lemma {:induction false} PlaceMembers(rows: seq<Row>, r: Row)
    ensures |Place(rows, r)| == |rows| + 1
    ensures forall x :: x in Place(rows, r) <==> x in rows || x == r
    decreases |rows|
  {
    if rows != [] && rows[|rows| - 1].rev > r.rev {
      PlaceMembers(rows[..|rows| - 1], r);
      assert rows == rows[..|rows| - 1] + [rows[|rows| - 1]];
    }
  }

  lemma AppendOrders(rows: seq<Row>, last: Row)
    requires ByRev(rows) && forall r | r in rows :: r.rev < last.rev
    ensures ByRev(rows + [last])
  {
    forall i | 0 <= i < |rows| ensures rows[i].rev < last.rev {
      assert rows[i] in rows;
    }
  }

  lemma {:induction false} PlaceOrders(rows: seq<Row>, r: Row)
    requires ByRev(rows) && NoRev(rows, r.rev)
    ensures ByRev(Place(rows, r))
    decreases |rows|
  {
    if rows != [] && rows[|rows| - 1].rev > r.rev {
      var n := |rows| - 1;
      PlaceOrders(rows[..n], r);
      PlaceMembers(rows[..n], r);
      AppendOrders(Place(rows[..n], r), rows[n]);
    }
  }

  lemma {:induction false} SortOrders(rows: seq<Row>)
    requires DistinctRevs(rows)
    ensures ByRev(SortByRev(rows)) && |SortByRev(rows)| == |rows|
    ensures forall x :: x in SortByRev(rows) <==> x in rows
    decreases |rows|
  {
    if rows != [] {
      var n := |rows| - 1;
      var s := SortByRev(rows[..n]);
      SortOrders(rows[..n]);
      assert rows == rows[..n] + [rows[n]];
      forall i | 0 <= i < |s| ensures s[i].rev != rows[n].rev {
        assert s[i] in rows[..n];
      }
      PlaceOrders(s, rows[n]);
      PlaceMembers(s, rows[n]);
    }
  }

  /** Rows in order that all occur among others in order are no more than those. */
  lemma {:induction false} FewerRows(some: seq<Row>, all: seq<Row>)
    requires ByRev(some) && ByRev(all) && forall r | r in some :: r in all
    ensures |some| <= |all|
    decreases |some|
  {
    if some != [] {
      var n := |some| - 1;
      assert some[n] in some;
      var j :| 0 <= j < |all| && all[j] == some[n];
      forall r | r in some[..n] ensures r in all[..j] {
        assert r in some;
        var i :| 0 <= i < |all| && all[i] == r;
        assert i < j;
        assert all[..j][i] == r;
      }
      FewerRows(some[..n], all[..j]);
    }
  }

  /** `limit` rows of lower revision are among the rows. */
  ghost predicate Crowded(rows: seq<Row>, limit: nat, rev: int) {
    exists some: seq<Row> :: |some| == limit && ByRev(some) && AllBelow(some, rev) && forall r | r in some :: r in rows
  }

  /** All rows of these tables above the cursor were read, or have `limit` lower ones before them. */
  ghost predicate Gathered(db: Db, cursor: int, limit: nat, tables: seq<Table>, all: seq<Row>)
    requires Issued(db)
  {
    && DistinctRevs(all)
    && (forall i | 0 <= i < |all| :: Reads(db, cursor, all[i]) && all[i].table in tables)
    && (forall k | k in db.rows && k.table in tables && RevOf(db.rows[k]) > cursor ::
          RowAt(k, db.rows[k]) in all || Crowded(all, limit, RevOf(db.rows[k])))
  }

  lemma CrowdedGrows(a: seq<Row>, b: seq<Row>, limit: nat, rev: int)
    requires Crowded(a, limit, rev)
    ensures Crowded(a + b, limit, rev)
  {
    var some: seq<Row> :| |some| == limit && ByRev(some) && AllBelow(some, rev) && forall r | r in some :: r in a;
    assert forall r | r in some :: r in a + b;
  }

  lemma ReadsFromPart(db: Db, t: Table, cursor: int, r: Row)
    requires Revisioned(db) && Revisioned(OfTable(db, t)) && Reads(OfTable(db, t), cursor, r)
    ensures Reads(db, cursor, r) && r.table == t
  {
    var k :| k in OfTable(db, t).rows && RowAt(k, OfTable(db, t).rows[k]) == r;
    assert k in db.rows && RowAt(k, db.rows[k]) == r;
  }

  lemma GatherNext(db: Db, cursor: int, limit: nat, tables: seq<Table>, all: seq<Row>, t: Table, rows: seq<Row>)
    requires Revisioned(db) && Revisioned(OfTable(db, t)) && t !in tables
    requires Gathered(db, cursor, limit, tables, all) && IsBatch(OfTable(db, t), cursor, limit, rows)
    ensures Gathered(db, cursor, limit, tables + [t], all + rows)
  {
    var next := all + rows;
    forall i | 0 <= i < |rows| ensures Reads(db, cursor, rows[i]) && rows[i].table == t {
      ReadsFromPart(db, t, cursor, rows[i]);
    }
    forall i, j | 0 <= i < |all| && 0 <= j < |rows| ensures all[i].rev != rows[j].rev {
      if all[i].rev == rows[j].rev {
        SameRevSameRow(db, cursor, all[i], rows[j]);
      }
    }
    forall k | k in db.rows && k.table in tables + [t] && RevOf(db.rows[k]) > cursor
      ensures RowAt(k, db.rows[k]) in next || Crowded(next, limit, RevOf(db.rows[k]))
    {
      if k.table == t {
        assert k in OfTable(db, t).rows;
        if RowAt(k, db.rows[k]) !in rows {
          assert forall r | r in rows :: r in next;
          assert |rows| == limit && ByRev(rows) && AllBelow(rows, RevOf(db.rows[k]));
        }
      } else if RowAt(k, db.rows[k]) !in all {
        CrowdedGrows(all, rows, limit, RevOf(db.rows[k]));
      }
    }
  }

  predicate OfTables(db: Db) {
    forall k | k in db.rows :: k.table in TABLES
  }

  lemma CrowdedAlike(a: seq<Row>, b: seq<Row>, limit: nat, rev: int)
    requires Crowded(a, limit, rev) && forall r :: r in a <==> r in b
    ensures Crowded(b, limit, rev)
  {
    var some: seq<Row> :| |some| == limit && ByRev(some) && AllBelow(some, rev) && forall r | r in some :: r in a;
    assert forall r | r in some :: r in b;
  }

  lemma PrefixIsBatch(db: Db, cursor: int, limit: nat, sorted: seq<Row>)
    requires Issued(db) && ByRev(sorted) && forall i | 0 <= i < |sorted| :: Reads(db, cursor, sorted[i])
    requires forall k | k in db.rows && RevOf(db.rows[k]) > cursor ::
      RowAt(k, db.rows[k]) in sorted || Crowded(sorted, limit, RevOf(db.rows[k]))
    ensures IsBatch(db, cursor, limit, if |sorted| > limit then sorted[..limit] else sorted)
  {
    var rows := if |sorted| > limit then sorted[..limit] else sorted;
    forall k | k in db.rows && RevOf(db.rows[k]) > cursor
      ensures RowAt(k, db.rows[k]) in rows || (|rows| == limit && AllBelow(rows, RevOf(db.rows[k])))
    {
      if RowAt(k, db.rows[k]) in sorted {
        var j :| 0 <= j < |sorted| && sorted[j] == RowAt(k, db.rows[k]);
        assert j < |rows| ==> rows[j] == sorted[j];
      } else {
        CrowdedOut(sorted, limit, RevOf(db.rows[k]));
      }
    }
  }

  /** The truncated merge is the batch, although each table gave no more than `limit` rows. */
  lemma MergedIsBatch(db: Db, cursor: int, limit: nat, all: seq<Row>)
    requires Revisioned(db) && OfTables(db) && Gathered(db, cursor, limit, TABLES, all)
    ensures
      var sorted := SortByRev(all);
      IsBatch(db, cursor, limit, if |sorted| > limit then sorted[..limit] else sorted)
  {
    SortOrders(all);
    var sorted := SortByRev(all);
    forall i | 0 <= i < |sorted| ensures Reads(db, cursor, sorted[i]) {
      assert sorted[i] in all;
      var j :| 0 <= j < |all| && all[j] == sorted[i];
    }
    forall k | k in db.rows && RevOf(db.rows[k]) > cursor
      ensures RowAt(k, db.rows[k]) in sorted || Crowded(sorted, limit, RevOf(db.rows[k]))
    {
      if RowAt(k, db.rows[k]) !in all {
        CrowdedAlike(all, sorted, limit, RevOf(db.rows[k]));
      }
    }
    PrefixIsBatch(db, cursor, limit, sorted);
  }

  lemma CrowdedOut(sorted: seq<Row>, limit: nat, rev: int)
    requires ByRev(sorted) && Crowded(sorted, limit, rev)
    ensures |sorted| >= limit && AllBelow(sorted[..limit], rev)
  {
    var some: seq<Row> :| |some| == limit && ByRev(some) && AllBelow(some, rev) && forall r | r in some :: r in sorted;
    FewerRows(some, sorted);
    if limit > 0 && sorted[limit - 1].rev >= rev {
      forall r | r in some ensures r in sorted[..limit - 1] {
        var i :| 0 <= i < |sorted| && sorted[i] == r;
        assert i < limit - 1;
        assert sorted[..limit - 1][i] == r;
      }
      FewerRows(some, sorted[..limit - 1]);
    }
  }

  /** One batch: reads every table up to the limit, merges what was read and cuts it off at the limit. */
  method ChangesSince(e: Database, cursor: int, limit: nat) returns (rows: seq<Row>)
    requires Revisioned(e.St()) && OfTables(e.St())
    ensures IsBatch(e.St(), cursor, limit, rows)
  {
    var db := Db(e.rows, e.counter);
    var all: seq<Row> := [];
    var n: nat := 0;
    while n < |TABLES|
      invariant n <= |TABLES| && Gathered(db, cursor, limit, TABLES[..n], all)
    {
      var part := Query(db, TABLES[n], cursor, limit);
      assert TABLES[..n + 1] == TABLES[..n] + [TABLES[n]];
      GatherNext(db, cursor, limit, TABLES[..n], all, TABLES[n], part);
      all := all + part;
      n := n + 1;
    }
    assert TABLES[..n] == TABLES;
    MergedIsBatch(db, cursor, limit, all);
    all := SortByRev(all);
    rows := if |all| > limit then all[..limit] else all;
  }
}
