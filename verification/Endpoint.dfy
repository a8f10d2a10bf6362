/** An endpoint database whose triggers stamp every written row with the next global revision. */
module Endpoint {
  import opened Wire

  datatype RowKey = RowKey(table: Table, key: Val)

  /** All tables as one map, and the revision counter. */
  datatype Db = Db(rows: map<RowKey, Data>, counter: int)

  predicate HasRev(d: Data) {
    Rev in d && d[Rev].Integer?
  }

  function RevOf(d: Data): int
    requires HasRev(d)
  {
    d[Rev].i
  }

  /** Every row has a revision that was issued: at least 1 and at most the counter. */
  predicate Issued(db: Db) {
    db.counter >= 0 && forall k | k in db.rows :: HasRev(db.rows[k]) && 1 <= RevOf(db.rows[k]) <= db.counter
  }

  predicate Unique(db: Db)
    requires Issued(db)
  {
    forall j, k | j in db.rows && k in db.rows && j != k :: RevOf(db.rows[j]) != RevOf(db.rows[k])
  }

  /** Revisions are globally unique, at least 1 and at most the counter. */
  predicate Revisioned(db: Db) {
    Issued(db) && Unique(db)
  }

  // ---------------------------------------------------------------------------------------------
  // Triggers

  /** UPDATE of one row, and the trigger it fires: unless the revision itself changed, the counter
    advances and a nested UPDATE of the row, which fires the trigger again, stores it. */
  function UpdateRow(db: Db, k: RowKey, d: Data): (db': Db)
    requires k in db.rows && HasRev(db.rows[k]) && HasRev(d) && RevOf(d) <= db.counter
    decreases if d[Rev] == db.rows[k][Rev] then 1 else 0
  {
    var db1 := db.(rows := db.rows[k := d]);
    if d[Rev] != db.rows[k][Rev] then db1
    else
      var db2 := db1.(counter := db1.counter + 1);
      UpdateRow(db2, k, d[Rev := Integer(db2.counter)])
  }

  /** INSERT of a row, which starts with revision 0, and the trigger it fires. */
  function InsertRow(db: Db, k: RowKey, d: Data): (db': Db)
    requires k !in db.rows && db.counter >= 0
  {
    var db1 := Db(db.rows[k := d[Rev := Integer(0)]], db.counter + 1);
    UpdateRow(db1, k, d[Rev := Integer(db1.counter)])
  }

  /** The statement gives the row, and no other, exactly one new revision. */
  predicate Stamps(db: Db, db': Db, k: RowKey, d: Data) {
    db' == Db(db.rows[k := d[Rev := Integer(db.counter + 1)]], db.counter + 1)
  }

  /** An update fires its trigger, whose own update fires no further one: exactly one revision is used. */
  lemma UpdateStampsOnce(db: Db, k: RowKey, d: Data)
    requires Revisioned(db) && k in db.rows && HasRev(d) && d[Rev] == db.rows[k][Rev]
    ensures Stamps(db, UpdateRow(db, k, d), k, d)
  {
    OverwrittenTwice(db.rows, k, d, d[Rev := Integer(db.counter + 1)]);
  }

  lemma OverwrittenTwice(rows: map<RowKey, Data>, k: RowKey, d: Data, next: Data)
    ensures rows[k := d][k := next] == rows[k := next]
  {
  }

  /** So does an insert, although its own update fires the update trigger. */
  lemma InsertStampsOnce(db: Db, k: RowKey, d: Data)
    requires Revisioned(db) && k !in db.rows
    ensures Stamps(db, InsertRow(db, k, d), k, d)
  {
    OverwrittenTwice(db.rows, k, d[Rev := Integer(0)], d[Rev := Integer(db.counter + 1)]);
  }

  // ---------------------------------------------------------------------------------------------
  // How an endpoint database evolves

  /** Whatever rows were written, they carry revisions that were not issued before; rows may also
    have disappeared, and keys of such rows may be in use again. */
  predicate Evolves(a: Db, b: Db) {
    && Revisioned(b)
    && a.counter <= b.counter
    && forall k | k in b.rows :: (k in a.rows && b.rows[k] == a.rows[k]) || RevOf(b.rows[k]) > a.counter
  }

  lemma EvolvesTransitive(a: Db, b: Db, c: Db)
    requires Evolves(a, b) && Evolves(b, c)
    ensures Evolves(a, c)
  {
  }

  lemma StampEvolves(db: Db, db': Db, k: RowKey, d: Data)
    requires Revisioned(db) && Stamps(db, db', k, d)
    ensures Evolves(db, db')
  {
  }

  lemma DeleteEvolves(db: Db, k: RowKey)
    requires Revisioned(db)
    ensures Evolves(db, db.(rows := db.rows - {k}))
  {
  }

  // ---------------------------------------------------------------------------------------------
  // Shape of rows

  /** The row has the columns of its table, with integers, text and NULL, and its own key. */
  predicate Fits(k: RowKey, d: Data) {
    && KnownTable(k.table)
    && d.Keys == Columns(k.table)
    && (forall c | c in d :: d[c].Null? || d[c].Integer? || d[c].Str?)
    && KeyColumn(k.table) in d && d[KeyColumn(k.table)] == k.key && k.key != Null
    && HasRev(d)
  }

  predicate AllFit(db: Db) {
    forall k | k in db.rows :: Fits(k, db.rows[k])
  }

  // ---------------------------------------------------------------------------------------------
  // The database as it runs

  class Database {
    var rows: map<RowKey, Data>
    var counter: int

    ghost function St(): Db
      reads this
    {
      Db(rows, counter)
    }

    constructor ()
      ensures St() == Db(map[], 0)
    {
      rows, counter := map[], 0;
    }

    method Update(k: RowKey, d: Data)
      requires k in rows && HasRev(rows[k]) && HasRev(d) && RevOf(d) <= counter
      modifies this
      ensures St() == UpdateRow(old(St()), k, d)
      decreases if d[Rev] == rows[k][Rev] then 1 else 0
    {
      var was := rows[k];
      rows := rows[k := d];
      if d[Rev] == was[Rev] {
        counter := counter + 1;
        Update(k, d[Rev := Integer(counter)]);
      }
    }

    method Insert(k: RowKey, d: Data)
      requires Revisioned(St()) && k !in rows
      modifies this
      ensures St() == InsertRow(old(St()), k, d)
      ensures Stamps(old(St()), St(), k, d)
    {
      InsertStampsOnce(St(), k, d);
      rows := rows[k := d[Rev := Integer(0)]];
      counter := counter + 1;
      Update(k, d[Rev := Integer(counter)]);
    }
  }
}
