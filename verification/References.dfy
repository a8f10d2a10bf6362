/** Deleting rows of an endpoint database under its foreign keys. */
module References {
  import opened Wire
  import opened Endpoint

  datatype Action = Cascade | SetNull | NoAction

  datatype Reference = NoReference | Reference(parent: Table, action: Action)

  /** The foreign keys of the schema. */
  function RefOf(t: Table, c: Column): Reference {
    match c
    case WatchId => if t == Runs || t == Orphans then Reference(Watches, NoAction) else NoReference
    case ParentRunId => if t == Runs then Reference(Runs, SetNull) else NoReference
    case SessionId => if t == Runs then Reference(Sessions, SetNull) else NoReference
    case ProfileHash => if t == Runs then Reference(Profiles, NoAction) else NoReference
    case RunId => if t == Processes || t == Denials || t == RunEnv then Reference(Runs, Cascade) else NoReference
    case ParentProcessId => if t == Processes then Reference(Processes, SetNull) else NoReference
    case ExecPrevProcessId => if t == Processes then Reference(Processes, SetNull) else NoReference
    case ProcessId => if t == Denials then Reference(Processes, Cascade) else NoReference
    case _ => NoReference
  }

  /** Column c of row j refers to row k, with this action when k is deleted. */
  predicate Points(j: RowKey, d: Data, c: Column, k: RowKey, action: Action) {
    c in d && RefOf(j.table, c) == Reference(k.table, action) && d[c] == k.key && k.key != Null
  }

  /** Column c refers to one of the rows. */
  predicate PointsInto(j: RowKey, d: Data, c: Column, rows: set<RowKey>, action: Action) {
    && c in d && d[c] != Null
    && var ref := RefOf(j.table, c);
       ref.Reference? && ref.action == action && RowKey(ref.parent, d[c]) in rows
  }

  /** Every reference that is not NULL names an existing row. */
  predicate Intact(db: Db) {
    forall j, c | j in db.rows && c in db.rows[j] && db.rows[j][c] != Null && RefOf(j.table, c).Reference? ::
      RowKey(RefOf(j.table, c).parent, db.rows[j][c]) in db.rows
  }

  // ---------------------------------------------------------------------------------------------
  // What deletions do to the rows that stay

  predicate ColumnAfter(j: RowKey, was: Data, now: Data, c: Column, removed: set<RowKey>)
    requires c in was && c in now
  {
    now[c] == was[c] || (now[c] == Null && PointsInto(j, was, c, removed, SetNull))
  }

  /** Some reference of the row was set to NULL. */
  predicate LostReference(j: RowKey, was: Data, now: Data, removed: set<RowKey>)
    requires now.Keys == was.Keys
  {
    exists c | c in was :: PointsInto(j, was, c, removed, SetNull) && now[c] == Null
  }

  /** The row is unchanged, or lost references to removed rows and has a new revision. */
  predicate RowAfter(j: RowKey, was: Data, now: Data, removed: set<RowKey>, counter: int) {
    now == was
    || (&& now.Keys == was.Keys
        && HasRev(now) && RevOf(now) > counter
        && (forall c | c in was && c != Rev :: ColumnAfter(j, was, now, c, removed))
        && LostReference(j, was, now, removed))
  }

  predicate Cascades(j: RowKey, d: Data, removed: set<RowKey>) {
    exists c | c in d :: PointsInto(j, d, c, removed, Cascade)
  }

  /** Deleting `roots` removed these rows: roots, and rows that cascade from removed ones. */
  predicate Removes(a: Db, b: Db, roots: set<RowKey>, removed: set<RowKey>) {
    && Revisioned(b) && a.counter <= b.counter
    && removed <= a.rows.Keys && b.rows.Keys == a.rows.Keys - removed
    && (removed == {} ==> b == a)
    && (forall j | j in b.rows :: RowAfter(j, a.rows[j], b.rows[j], removed, a.counter))
    && (forall j {:trigger Cascades(j, a.rows[j], removed)} | j in removed :: j in roots || Cascades(j, a.rows[j], removed))
  }

  /** No row refers to a removed one any more, but for references without an action. */
  predicate Closed(db: Db, removed: set<RowKey>) {
    forall j, c | j in db.rows && c in db.rows[j] ::
      !PointsInto(j, db.rows[j], c, removed, Cascade) && !PointsInto(j, db.rows[j], c, removed, SetNull)
  }

  // ---------------------------------------------------------------------------------------------
  // Composition

  lemma PointsIntoMore(j: RowKey, d: Data, c: Column, rows: set<RowKey>, more: set<RowKey>, action: Action)
    requires PointsInto(j, d, c, rows, action) && rows <= more
    ensures PointsInto(j, d, c, more, action)
  {
  }

  lemma LostMore(j: RowKey, was: Data, now: Data, removed: set<RowKey>, more: set<RowKey>)
    requires now.Keys == was.Keys && LostReference(j, was, now, removed) && removed <= more
    ensures LostReference(j, was, now, more)
  {
    var c :| c in was && PointsInto(j, was, c, removed, SetNull) && now[c] == Null;
    PointsIntoMore(j, was, c, removed, more, SetNull);
  }

  lemma ColumnAfterTransitive(j: RowKey, x: Data, y: Data, z: Data, c: Column, r1: set<RowKey>, r2: set<RowKey>)
    requires c in x && c in y && c in z && ColumnAfter(j, x, y, c, r1) && ColumnAfter(j, y, z, c, r2)
    ensures ColumnAfter(j, x, z, c, r1 + r2)
  {
  }

  lemma RowAfterMore(j: RowKey, was: Data, now: Data, removed: set<RowKey>, n: int, more: set<RowKey>, m: int)
    requires RowAfter(j, was, now, removed, n) && removed <= more && m <= n
    ensures RowAfter(j, was, now, more, m)
  {
    if now != was {
      LostMore(j, was, now, removed, more);
      forall c | c in was && c != Rev ensures ColumnAfter(j, was, now, c, more) {
        assert ColumnAfter(j, was, now, c, removed);
      }
    }
  }

  lemma RowAfterTransitive(j: RowKey, x: Data, y: Data, z: Data, r1: set<RowKey>, r2: set<RowKey>, n1: int, n2: int)
    requires RowAfter(j, x, y, r1, n1) && RowAfter(j, y, z, r2, n2) && n1 <= n2
    ensures RowAfter(j, x, z, r1 + r2, n1)
  {
    if y == z {
      RowAfterMore(j, x, y, r1, n1, r1 + r2, n1);
    } else if x == y {
      RowAfterMore(j, y, z, r2, n2, r1 + r2, n1);
    } else {
      forall c | c in x && c != Rev ensures ColumnAfter(j, x, z, c, r1 + r2) {
        ColumnAfterTransitive(j, x, y, z, c, r1, r2);
      }
      LostEarlier(j, x, y, z, r1, r2);
    }
  }

  lemma LostEarlier(j: RowKey, x: Data, y: Data, z: Data, r1: set<RowKey>, r2: set<RowKey>)
    requires y.Keys == x.Keys && z.Keys == y.Keys && LostReference(j, x, y, r1)
    requires forall c | c in y && c != Rev :: ColumnAfter(j, y, z, c, r2)
    ensures LostReference(j, x, z, r1 + r2)
  {
    var c :| c in x && PointsInto(j, x, c, r1, SetNull) && y[c] == Null;
    assert RefOf(j.table, Rev).NoReference?;
    assert ColumnAfter(j, y, z, c, r2);
    PointsIntoMore(j, x, c, r1, r1 + r2, SetNull);
  }

  /** References with other actions than SET NULL do not change. */
  lemma OtherColumnsStay(j: RowKey, was: Data, now: Data, removed: set<RowKey>, counter: int, c: Column)
    requires RowAfter(j, was, now, removed, counter) && c in was && c != Rev
    requires RefOf(j.table, c).NoReference? || RefOf(j.table, c).action != SetNull
    ensures c in now && now[c] == was[c]
  {
    if now != was {
      assert ColumnAfter(j, was, now, c, removed);
    }
  }

  lemma CascadesBack(j: RowKey, was: Data, now: Data, removed: set<RowKey>, counter: int, rows: set<RowKey>, more: set<RowKey>)
    requires RowAfter(j, was, now, removed, counter) && Cascades(j, now, rows)
    ensures Cascades(j, was, rows + more)
  {
    var c :| c in now && PointsInto(j, now, c, rows, Cascade);
    assert c in was;
    assert RefOf(j.table, Rev).NoReference?;
    OtherColumnsStay(j, was, now, removed, counter, c);
    assert PointsInto(j, was, c, rows + more, Cascade);
  }

  lemma CascadesGrows(j: RowKey, d: Data, rows: set<RowKey>, more: set<RowKey>)
    requires Cascades(j, d, rows) && rows <= more
    ensures Cascades(j, d, more)
  {
    var c :| c in d && PointsInto(j, d, c, rows, Cascade);
    assert PointsInto(j, d, c, more, Cascade);
  }

  lemma RemovesTransitive(a: Db, b: Db, c: Db, roots: set<RowKey>, r1: set<RowKey>, next: set<RowKey>, r2: set<RowKey>)
    requires Removes(a, b, roots, r1) && Removes(b, c, next, r2)
    requires forall j | j in next && j in b.rows :: j in roots || Cascades(j, a.rows[j], r1)
    ensures Removes(a, c, roots, r1 + r2)
  {
    forall j | j in c.rows ensures RowAfter(j, a.rows[j], c.rows[j], r1 + r2, a.counter) {
      RowAfterTransitive(j, a.rows[j], b.rows[j], c.rows[j], r1, r2, a.counter, b.counter);
    }
    forall j | j in r1 + r2 ensures j in roots || Cascades(j, a.rows[j], r1 + r2) {
      if j in r1 {
        if j !in roots {
          CascadesGrows(j, a.rows[j], r1, r1 + r2);
        }
      } else if j in next {
        if j !in roots {
          CascadesGrows(j, a.rows[j], r1, r1 + r2);
        }
      } else {
        CascadesBack(j, a.rows[j], b.rows[j], r1, a.counter, r2, r1);
        assert r2 + r1 == r1 + r2;
      }
    }
  }

  /** Rows that stay lose references, they never gain one. */
  lemma PointsBack(j: RowKey, was: Data, now: Data, removed: set<RowKey>, counter: int, c: Column, rows: set<RowKey>, action: Action)
    requires RowAfter(j, was, now, removed, counter) && PointsInto(j, now, c, rows, action)
    ensures PointsInto(j, was, c, rows, action)
  {
    assert RefOf(j.table, Rev).NoReference?;
    if now != was {
      assert ColumnAfter(j, was, now, c, removed);
    }
  }

  lemma ClosedStays(a: Db, b: Db, roots: set<RowKey>, removed: set<RowKey>, r: set<RowKey>)
    requires Removes(a, b, roots, removed) && Closed(a, r) && Closed(b, removed)
    ensures Closed(b, r + removed)
  {
    forall j, c | j in b.rows && c in b.rows[j]
      ensures !PointsInto(j, b.rows[j], c, r + removed, Cascade) && !PointsInto(j, b.rows[j], c, r + removed, SetNull)
    {
      forall action | action == Cascade || action == SetNull ensures !PointsInto(j, b.rows[j], c, r + removed, action) {
        if PointsInto(j, b.rows[j], c, r, action) {
          PointsBack(j, a.rows[j], b.rows[j], removed, a.counter, c, r, action);
        }
      }
    }
  }

  /** Deletion is one way an endpoint database evolves. */
  lemma RemovesEvolves(a: Db, b: Db, roots: set<RowKey>, removed: set<RowKey>)
    requires Removes(a, b, roots, removed)
    ensures Evolves(a, b)
  {
    forall k | k in b.rows ensures (k in a.rows && b.rows[k] == a.rows[k]) || RevOf(b.rows[k]) > a.counter {
      assert RowAfter(k, a.rows[k], b.rows[k], removed, a.counter);
    }
  }

  /** Every row that referred to a removed row with SET NULL has NULL there now and a new revision. */
  lemma NulledRowsAreRestamped(a: Db, b: Db, roots: set<RowKey>, removed: set<RowKey>, j: RowKey, c: Column)
    requires Removes(a, b, roots, removed) && Closed(b, removed)
    requires j in b.rows && PointsInto(j, a.rows[j], c, removed, SetNull)
    ensures c in b.rows[j] && b.rows[j][c] == Null && HasRev(b.rows[j]) && RevOf(b.rows[j]) > a.counter
  {
    assert RowAfter(j, a.rows[j], b.rows[j], removed, a.counter);
    assert RefOf(j.table, Rev).NoReference?;
    assert !PointsInto(j, b.rows[j], c, removed, SetNull);
    assert b.rows[j] != a.rows[j] ==> ColumnAfter(j, a.rows[j], b.rows[j], c, removed);
  }
}
