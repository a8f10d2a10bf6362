/** Revisions stay unique in every state an endpoint database reaches, fresh or migrated. */
module Revisions {
  import opened Wire
  import opened Endpoint

  // ---------------------------------------------------------------------------------------------
  // Statements

  datatype Statement = InsertStatement(k: RowKey, d: Data) | UpdateStatement(k: RowKey, d: Data) | DeleteStatement(k: RowKey)

  /** One statement on one row. An insert of an existing key fails, an update of a missing row
    changes nothing, and no update sets the revision itself. */
  function Executed(db: Db, st: Statement): (db': Db)
    requires Revisioned(db)
  {
    match st
    case InsertStatement(k, d) => if k in db.rows then db else InsertRow(db, k, d)
    case UpdateStatement(k, d) => if k !in db.rows then db else UpdateRow(db, k, d[Rev := db.rows[k][Rev]])
    case DeleteStatement(k) => db.(rows := db.rows - {k})
  }

  /** The statement writes a row. */
  predicate Writes(db: Db, st: Statement) {
    match st
    case InsertStatement(k, d) => k !in db.rows
    case UpdateStatement(k, d) => k in db.rows
    case DeleteStatement(k) => false
  }

  lemma ExecutedStamps(db: Db, st: Statement)
    requires Revisioned(db)
    ensures Evolves(db, Executed(db, st))
    ensures Executed(db, st).counter == db.counter + if Writes(db, st) then 1 else 0
    ensures Writes(db, st) ==> st.k in Executed(db, st).rows && RevOf(Executed(db, st).rows[st.k]) == db.counter + 1
  {
    match st {
      case InsertStatement(k, d) =>
        if k !in db.rows {
          InsertStampsOnce(db, k, d);
          StampEvolves(db, Executed(db, st), k, d);
        }
      case UpdateStatement(k, d) =>
        if k in db.rows {
          UpdateStampsOnce(db, k, d[Rev := db.rows[k][Rev]]);
          StampEvolves(db, Executed(db, st), k, d[Rev := db.rows[k][Rev]]);
        }
      case DeleteStatement(k) =>
        DeleteEvolves(db, k);
    }
  }

  ghost predicate Reaches(db: Db, sts: seq<Statement>, db': Db)
    decreases |sts|
  {
    if sts == [] then db' == db
    else Revisioned(db) && Reaches(Executed(db, sts[0]), sts[1..], db')
  }

  function WriteCount(db: Db, sts: seq<Statement>): nat
    decreases |sts|
  {
    if sts == [] || !Revisioned(db) then 0
    else (if Writes(db, sts[0]) then 1 else 0) + WriteCount(Executed(db, sts[0]), sts[1..])
  }

  /** After any statements revisions are still unique and issued, and the counter advanced once for
    every row written. */
  lemma {:induction false} RevisionsStayUnique(db: Db, sts: seq<Statement>, db': Db)
    requires Revisioned(db) && Reaches(db, sts, db')
    ensures Evolves(db, db') && db'.counter == db.counter + WriteCount(db, sts)
    decreases |sts|
  {
    if sts != [] {
      ExecutedStamps(db, sts[0]);
      RevisionsStayUnique(Executed(db, sts[0]), sts[1..], db');
      EvolvesTransitive(db, Executed(db, sts[0]), db');
    }
  }

  // ---------------------------------------------------------------------------------------------
  // Migration of a database without revisions

  datatype RowId = RowId(table: Table, rowid: nat)

  const V2_TABLES: seq<Table> := [Watches, Sessions, Profiles, Runs, Processes, Denials, Orphans]

  function KeyAt(id: RowId, d: Data): RowKey
    requires KeyColumn(id.table) in d
  {
    RowKey(id.table, d[KeyColumn(id.table)])
  }

  /** A database of schema version 1: rows of the seven tables, with rowids from 1 and primary keys. */
  ghost predicate IsV1(rows: map<RowId, Data>) {
    && (forall id | id in rows :: id.table in V2_TABLES && id.rowid >= 1 && KeyColumn(id.table) in rows[id])
    && (forall a, b | a in rows && b in rows && a != b :: KeyAt(a, rows[a]) != KeyAt(b, rows[b]))
  }

  /** Where a table stands in backfill order. */
  function Position(t: Table): (i: nat)
    ensures t in V2_TABLES ==> i < |V2_TABLES| && V2_TABLES[i] == t
  {
    match t
    case Watches => 0
    case Sessions => 1
    case Profiles => 2
    case Runs => 3
    case Processes => 4
    case Denials => 5
    case _ => 6
  }

  /** a's revision comes before b's. */
  predicate Earlier(a: RowId, b: RowId) {
    Position(a.table) < Position(b.table) || (a.table == b.table && a.rowid < b.rowid)
  }

  /** UPDATE of all rows of a table: rev = rowid + offset. */
  function Backfilled(rows: map<RowId, Data>, t: Table, offset: int): (rows': map<RowId, Data>) {
    map id | id in rows :: if id.table == t then rows[id][Rev := Integer(id.rowid + offset)] else rows[id]
  }

  /** The largest rowid of a table, 0 if it is empty. */
  method MaxRowId(rows: map<RowId, Data>, t: Table) returns (m: nat)
    ensures forall id | id in rows && id.table == t :: id.rowid <= m
    ensures m == 0 || RowId(t, m) in rows
  {
    m := 0;
    var todo := rows.Keys;
    while todo != {}
      invariant todo <= rows.Keys
      invariant forall id | id in rows && id.table == t && id !in todo :: id.rowid <= m
      invariant m == 0 || RowId(t, m) in rows
      decreases todo
    {
      var id :| id in todo;
      if id.table == t && id.rowid > m {
        m := id.rowid;
      }
      todo := todo - {id};
    }
  }

  /** Rows of the tables before n have revisions up to offset, in order; the others are untouched. */
  ghost predicate BackfilledTo(v1: map<RowId, Data>, rows: map<RowId, Data>, n: nat, offset: int) {
    && rows.Keys == v1.Keys
    && (forall id | id in v1 :: if Position(id.table) < n then SameButRev(v1[id], rows[id]) else rows[id] == v1[id])
    && (forall id | id in v1 && Position(id.table) < n :: HasRev(rows[id]) && 1 <= RevOf(rows[id]) <= offset)
    && (forall a, b | a in v1 && b in v1 && Position(a.table) < n && Position(b.table) < n && Earlier(a, b) ::
          RevOf(rows[a]) < RevOf(rows[b]))
  }

  predicate SameButRev(a: Data, b: Data) {
    b == a[Rev := if Rev in b then b[Rev] else Null]
  }

  lemma BackfillNext(v1: map<RowId, Data>, rows: map<RowId, Data>, n: nat, offset: nat, m: nat)
    requires IsV1(v1) && n < |V2_TABLES| && BackfilledTo(v1, rows, n, offset)
    requires forall id | id in rows && id.table == V2_TABLES[n] :: id.rowid <= m
    ensures BackfilledTo(v1, Backfilled(rows, V2_TABLES[n], offset), n + 1, offset + m)
  {
    var t := V2_TABLES[n];
    var rows' := Backfilled(rows, t, offset);
    assert Position(t) == n;
    forall id | id in v1 && Position(id.table) < n + 1
      ensures HasRev(rows'[id]) && 1 <= RevOf(rows'[id]) <= offset + m && SameButRev(v1[id], rows'[id])
      ensures RevOf(rows'[id]) == if id.table == t then id.rowid + offset else RevOf(rows[id])
    {
      assert id.table in V2_TABLES;
      assert id.table == t <==> Position(id.table) == n;
    }
    forall id | id in v1 && Position(id.table) >= n + 1 ensures rows'[id] == v1[id] {
      assert id.table != t;
    }
    forall a, b | a in v1 && b in v1 && Position(a.table) < n + 1 && Position(b.table) < n + 1 && Earlier(a, b)
      ensures RevOf(rows'[a]) < RevOf(rows'[b])
    {
      assert a.table in V2_TABLES && b.table in V2_TABLES;
      assert a.table == t <==> Position(a.table) == n;
      assert b.table == t <==> Position(b.table) == n;
    }
  }

  /** Adds revisions to all rows, table by table, and starts the counter after the last one. */
  method UpgradeV2(v1: map<RowId, Data>) returns (rows: map<RowId, Data>, counter: nat)
    requires IsV1(v1)
    ensures BackfilledTo(v1, rows, |V2_TABLES|, counter)
  {
    rows, counter := v1, 0;
    var n: nat := 0;
    while n < |V2_TABLES|
      invariant n <= |V2_TABLES| && BackfilledTo(v1, rows, n, counter)
    {
      var t := V2_TABLES[n];
      var m := MaxRowId(rows, t);
      BackfillNext(v1, rows, n, counter, m);
      rows := Backfilled(rows, t, counter);
      counter := counter + m;
      n := n + 1;
    }
  }

  function Keyed(rows: map<RowId, Data>): (keyed: map<RowKey, Data>)
    requires forall id | id in rows :: KeyColumn(id.table) in rows[id]
    requires forall a, b | a in rows && b in rows && a != b :: KeyAt(a, rows[a]) != KeyAt(b, rows[b])
  {
    map id | id in rows :: KeyAt(id, rows[id]) := rows[id]
  }

  lemma EarlierIsTotal(a: RowId, b: RowId)
    requires a.table in V2_TABLES && b.table in V2_TABLES && a != b
    ensures Earlier(a, b) || Earlier(b, a)
  {
    assert V2_TABLES[Position(a.table)] == a.table && V2_TABLES[Position(b.table)] == b.table;
  }

  predicate KeepsKeys(v1: map<RowId, Data>, rows: map<RowId, Data>) {
    && rows.Keys == v1.Keys
    && forall id | id in rows ::
         KeyColumn(id.table) in rows[id] && KeyColumn(id.table) in v1[id] && rows[id][KeyColumn(id.table)] == v1[id][KeyColumn(id.table)]
  }

  lemma BackfillKeepsKeys(v1: map<RowId, Data>, rows: map<RowId, Data>, n: nat, counter: nat)
    requires IsV1(v1) && BackfilledTo(v1, rows, n, counter)
    ensures KeepsKeys(v1, rows)
  {
    forall id | id in rows
      ensures KeyColumn(id.table) in rows[id] && rows[id][KeyColumn(id.table)] == v1[id][KeyColumn(id.table)]
    {
      assert Position(id.table) < n ==> SameButRev(v1[id], rows[id]);
    }
  }

  /** A migrated database has unique, issued revisions: tables got disjoint ranges. */
  lemma MigratedIsRevisioned(v1: map<RowId, Data>, rows: map<RowId, Data>, counter: nat)
    requires IsV1(v1) && BackfilledTo(v1, rows, |V2_TABLES|, counter)
    ensures KeepsKeys(v1, rows) && Revisioned(Db(Keyed(rows), counter))
  {
    BackfillKeepsKeys(v1, rows, |V2_TABLES|, counter);
    forall id | id in rows ensures HasRev(rows[id]) && 1 <= RevOf(rows[id]) <= counter {
      assert id.table in V2_TABLES;
    }
    forall a, b | a in rows && b in rows && a != b ensures RevOf(rows[a]) != RevOf(rows[b]) {
      EarlierIsTotal(a, b);
    }
    KeyedIsRevisioned(rows, counter);
  }

  lemma KeyedIsRevisioned(rows: map<RowId, Data>, counter: nat)
    requires forall id | id in rows :: KeyColumn(id.table) in rows[id] && HasRev(rows[id]) && 1 <= RevOf(rows[id]) <= counter
    requires forall a, b | a in rows && b in rows && a != b ::
      KeyAt(a, rows[a]) != KeyAt(b, rows[b]) && RevOf(rows[a]) != RevOf(rows[b])
    ensures Revisioned(Db(Keyed(rows), counter))
  {
    var keyed := Keyed(rows);
    forall j, k | j in keyed && k in keyed && j != k ensures HasRev(keyed[j]) && HasRev(keyed[k]) && RevOf(keyed[j]) != RevOf(keyed[k]) {
      var a :| a in rows && KeyAt(a, rows[a]) == j;
      var b :| b in rows && KeyAt(b, rows[b]) == k;
    }
  }
}
