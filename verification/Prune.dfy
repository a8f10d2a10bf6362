/** What a prune of an endpoint database deletes, and what follows from it under the foreign keys. */
module Pruning {
  import opened Wire
  import opened Endpoint
  import opened References

  // ---------------------------------------------------------------------------------------------
  // Deleting one row

  /** What is still open while the children of the removed row k are visited: only rows in `todo`
    refer to removed rows, and only to k. */
  predicate OpenAt(db: Db, removed: set<RowKey>, k: RowKey, todo: set<RowKey>) {
    forall j, c | j in db.rows && c in db.rows[j] ::
      && (PointsInto(j, db.rows[j], c, removed, Cascade) ==> j in todo && Points(j, db.rows[j], c, k, Cascade))
      && (PointsInto(j, db.rows[j], c, removed, SetNull) ==> j in todo && Points(j, db.rows[j], c, k, SetNull))
  }

  predicate RefersTo(j: RowKey, d: Data, k: RowKey, action: Action) {
    exists c | c in d :: Points(j, d, c, k, action)
  }

  lemma NullOne(a: Db, b: Db, b': Db, roots: set<RowKey>, removed: set<RowKey>, j: RowKey, c: Column, k: RowKey)
    requires Removes(a, b, roots, removed) && k in removed && j in b.rows && Points(j, b.rows[j], c, k, SetNull)
    requires Stamps(b, b', j, b.rows[j][c := Null])
    ensures Removes(a, b', roots, removed)
  {
    assert b'.rows == b.rows[j := Nulled(b.rows[j], c, b.counter)];
    NulledIsRevisioned(b, b', j, c, k);
    var now := NulledFrom(a, b, roots, removed, j, c, k);
    RemovesRow(a, b, b', roots, removed, j, now);
  }

  lemma NulledFrom(a: Db, b: Db, roots: set<RowKey>, removed: set<RowKey>, j: RowKey, c: Column, k: RowKey) returns (now: Data)
    requires Removes(a, b, roots, removed) && k in removed && j in b.rows && Points(j, b.rows[j], c, k, SetNull)
    ensures now == Nulled(b.rows[j], c, b.counter)
    ensures j in a.rows && RowAfter(j, a.rows[j], now, removed, a.counter)
  {
    now := Nulled(b.rows[j], c, b.counter);
    RemovesAt(a, b, roots, removed, j);
    NulledAgain(j, a.rows[j], b.rows[j], c, k, removed, a.counter, b.counter);
  }

  /** The row after its column c is set to NULL. */
  function Nulled(was: Data, c: Column, counter: int): Data {
    was[c := Null][Rev := Integer(counter + 1)]
  }

  lemma RemovesAt(a: Db, b: Db, roots: set<RowKey>, removed: set<RowKey>, j: RowKey)
    requires Removes(a, b, roots, removed) && j in b.rows
    ensures j in a.rows && RowAfter(j, a.rows[j], b.rows[j], removed, a.counter) && HasRev(b.rows[j]) && a.counter <= b.counter
  {
  }

  lemma NulledIsRevisioned(b: Db, b': Db, j: RowKey, c: Column, k: RowKey)
    requires Revisioned(b) && NullsOne(b, b', j, c, k)
    ensures Revisioned(b')
  {
    StampEvolves(b, b', j, b.rows[j][c := Null]);
  }

  lemma NulledAgain(j: RowKey, x: Data, was: Data, c: Column, k: RowKey, removed: set<RowKey>, n: int, counter: int)
    requires RowAfter(j, x, was, removed, n) && HasRev(was) && Points(j, was, c, k, SetNull) && k in removed && n <= counter
    ensures RowAfter(j, x, Nulled(was, c, counter), removed, n)
  {
    var now := Nulled(was, c, counter);
    assert removed + {k} == removed;
    assert RowAfter(j, was, now, {k}, counter) by {
      NulledRowAfter(j, was, c, k, counter);
    }
    RowAfterTransitive(j, x, was, now, removed, {k}, n, counter);
  }

  lemma RemovesRow(a: Db, b: Db, b': Db, roots: set<RowKey>, removed: set<RowKey>, j: RowKey, now: Data)
    requires Removes(a, b, roots, removed) && removed != {} && j in b.rows && RowAfter(j, a.rows[j], now, removed, a.counter)
    requires Revisioned(b') && b'.rows == b.rows[j := now] && b'.counter == b.counter + 1
    ensures Removes(a, b', roots, removed)
  {
  }

  lemma NulledRowAfter(j: RowKey, was: Data, c: Column, k: RowKey, counter: int)
    requires HasRev(was) && Points(j, was, c, k, SetNull)
    ensures RowAfter(j, was, Nulled(was, c, counter), {k}, counter)
  {
    assert RefOf(j.table, Rev).NoReference?;
    assert PointsInto(j, was, c, {k}, SetNull);
  }

  /** The row is the same but for columns that became NULL, and its revision. */
  predicate Loses(was: Data, now: Data) {
    now.Keys == was.Keys && forall c | c in now && c != Rev :: now[c] == was[c] || now[c] == Null
  }

  predicate OnlyRow(rows: map<RowKey, Data>, rows': map<RowKey, Data>, j: RowKey) {
    rows'.Keys == rows.Keys && forall x | x in rows && x != j :: rows'[x] == rows[x]
  }

  function NonNull(d: Data): set<Column> {
    set c | c in d && d[c] != Null
  }

  /** The update that sets column c of row j to NULL, with its trigger. */
  predicate NullsOne(b: Db, b': Db, j: RowKey, c: Column, k: RowKey) {
    j in b.rows && Points(j, b.rows[j], c, k, SetNull) && Stamps(b, b', j, b.rows[j][c := Null])
  }

  /** P survives setting references to k to NULL. */
  ghost predicate SurvivesNulls(P: Db -> bool, k: RowKey) {
    && (forall b :: P(b) ==> Revisioned(b))
    && (forall b, b', j, c {:trigger NullsOne(b, b', j, c, k)} :: P(b) && NullsOne(b, b', j, c, k) ==> P(b'))
  }

  lemma RemovesSurvives(a: Db, roots: set<RowKey>, removed: set<RowKey>, k: RowKey)
    requires k in removed
    ensures SurvivesNulls(db => Removes(a, db, roots, removed), k)
  {
    forall b: Db, b': Db, j: RowKey, c: Column | Removes(a, b, roots, removed) && NullsOne(b, b', j, c, k)
      ensures Removes(a, b', roots, removed)
    {
      NullOne(a, b, b', roots, removed, j, c, k);
    }
  }

  lemma NotTheRevision(j: RowKey, d: Data, c: Column, k: RowKey)
    requires Points(j, d, c, k, SetNull)
    ensures c != Rev
  {
  }

  lemma NullsOneLoses(b: Db, b': Db, j: RowKey, c: Column, k: RowKey)
    requires NullsOne(b, b', j, c, k) && HasRev(b.rows[j]) && c != Rev
    ensures OnlyRow(b.rows, b'.rows, j) && Loses(b.rows[j], b'.rows[j]) && NonNull(b'.rows[j]) < NonNull(b.rows[j])
  {
    LosesOne(b.rows[j], b'.rows[j], c, b.counter);
  }

  lemma LosesOne(was: Data, now: Data, c: Column, counter: int)
    requires Rev in was && was[Rev] != Null && c in was && was[c] != Null && c != Rev
    requires now == Nulled(was, c, counter)
    ensures Loses(was, now) && NonNull(now) < NonNull(was)
  {
    assert c in NonNull(was) && c !in NonNull(now);
    assert NonNull(now) <= NonNull(was);
  }

  method NullColumn(e: Database, j: RowKey, c: Column, k: RowKey, ghost P: Db -> bool)
    requires SurvivesNulls(P, k) && P(e.St()) && j in e.rows && Points(j, e.rows[j], c, k, SetNull)
    modifies e
    ensures P(e.St()) && OnlyRow(old(e.rows), e.rows, j) && Loses(old(e.rows)[j], e.rows[j])
    ensures NonNull(e.rows[j]) < NonNull(old(e.rows)[j])
  {
    ghost var b := e.St();
    NotTheRevision(j, e.rows[j], c, k);
    assert HasRev(b.rows[j]);
    UpdateStampsOnce(b, j, e.rows[j][c := Null]);
    e.Update(j, e.rows[j][c := Null]);
    assert P(e.St()) by {
      assert NullsOne(b, e.St(), j, c, k);
    }
    NullsOneLoses(b, e.St(), j, c, k);
  }

  /** ON DELETE SET NULL for one row that refers to k, column by column. */
  method NullColumns(e: Database, j: RowKey, k: RowKey, ghost P: Db -> bool)
    requires SurvivesNulls(P, k) && P(e.St()) && j in e.rows
    modifies e
    ensures P(e.St()) && OnlyRow(old(e.rows), e.rows, j) && Loses(old(e.rows)[j], e.rows[j])
    ensures !RefersTo(j, e.rows[j], k, SetNull)
  {
    while RefersTo(j, e.rows[j], k, SetNull)
      invariant P(e.St()) && OnlyRow(old(e.rows), e.rows, j) && Loses(old(e.rows)[j], e.rows[j])
      decreases NonNull(e.rows[j])
    {
      var c :| c in e.rows[j] && Points(j, e.rows[j], c, k, SetNull);
      NullColumn(e, j, c, k, P);
    }
  }

  lemma RemoveOne(a: Db, k: RowKey)
    requires Revisioned(a) && k in a.rows
    ensures Removes(a, a.(rows := a.rows - {k}), {k}, {k})
  {
  }

  lemma OpenAtStart(db: Db, k: RowKey, todo: set<RowKey>)
    requires forall j | j in db.rows && (RefersTo(j, db.rows[j], k, Cascade) || RefersTo(j, db.rows[j], k, SetNull)) :: j in todo
    ensures OpenAt(db, {k}, k, todo)
  {
  }

  /** A child was removed with all that cascades from it. */
  lemma OpenAfterCascade(a: Db, b: Db, c: Db, k: RowKey, removed: set<RowKey>, j: RowKey, sub: set<RowKey>, todo: set<RowKey>)
    requires Removes(a, b, {k}, removed) && Removes(b, c, {j}, sub) && j in sub && Closed(c, sub)
    requires OpenAt(b, removed, k, todo) && j in b.rows && RefersTo(j, b.rows[j], k, Cascade) && k in removed
    ensures Removes(a, c, {k}, removed + sub) && OpenAt(c, removed + sub, k, todo - {j})
  {
    assert Cascades(j, a.rows[j], removed) by {
      var x :| x in b.rows[j] && Points(j, b.rows[j], x, k, Cascade);
      assert RefOf(j.table, Rev).NoReference?;
      OtherColumnsStay(j, a.rows[j], b.rows[j], removed, a.counter, x);
      assert PointsInto(j, a.rows[j], x, removed, Cascade);
    }
    RemovesTransitive(a, b, c, {k}, removed, {j}, sub);
    forall i, x | i in c.rows && x in c.rows[i]
      ensures PointsInto(i, c.rows[i], x, removed + sub, Cascade) ==> i in todo - {j} && Points(i, c.rows[i], x, k, Cascade)
      ensures PointsInto(i, c.rows[i], x, removed + sub, SetNull) ==> i in todo - {j} && Points(i, c.rows[i], x, k, SetNull)
    {
      StillOpen(b, c, k, removed, j, sub, todo, i, x, Cascade);
      StillOpen(b, c, k, removed, j, sub, todo, i, x, SetNull);
    }
  }

  lemma PointsSame(j: RowKey, was: Data, now: Data, removed: set<RowKey>, counter: int, c: Column)
    requires RowAfter(j, was, now, removed, counter) && c in was && c in now && now[c] != Null && RefOf(j.table, c).Reference?
    ensures now[c] == was[c]
  {
    assert RefOf(j.table, Rev).NoReference?;
    assert now == was || ColumnAfter(j, was, now, c, removed);
  }

  lemma StillOpen(
      b: Db, c: Db, k: RowKey, removed: set<RowKey>, j: RowKey, sub: set<RowKey>, todo: set<RowKey>, i: RowKey, x: Column, action: Action)
    requires Removes(b, c, {j}, sub) && j in sub && Closed(c, sub) && OpenAt(b, removed, k, todo) && action != NoAction
    requires i in c.rows && x in c.rows[i]
    ensures PointsInto(i, c.rows[i], x, removed + sub, action) ==> i in todo - {j} && Points(i, c.rows[i], x, k, action)
  {
    if PointsInto(i, c.rows[i], x, removed + sub, action) {
      assert PointsInto(i, c.rows[i], x, removed, action);
      PointsBack(i, b.rows[i], c.rows[i], sub, b.counter, x, removed, action);
      assert Points(i, b.rows[i], x, k, action);
      PointsSame(i, b.rows[i], c.rows[i], sub, b.counter, x);
    }
  }

  /** A child's references to k were set to NULL. */
  lemma OpenAfterNull(b: Db, c: Db, k: RowKey, removed: set<RowKey>, j: RowKey, todo: set<RowKey>)
    requires OpenAt(b, removed, k, todo) && j in b.rows && !RefersTo(j, b.rows[j], k, Cascade)
    requires OnlyRow(b.rows, c.rows, j) && Loses(b.rows[j], c.rows[j]) && !RefersTo(j, c.rows[j], k, SetNull)
    ensures OpenAt(c, removed, k, todo - {j})
  {
    assert RefOf(j.table, Rev).NoReference?;
    forall x | x in c.rows[j]
      ensures !PointsInto(j, c.rows[j], x, removed, Cascade) && !PointsInto(j, c.rows[j], x, removed, SetNull)
    {
      assert !Points(j, b.rows[j], x, k, Cascade) && !Points(j, c.rows[j], x, k, SetNull);
      assert !PointsInto(j, b.rows[j], x, removed, Cascade);
      assert PointsInto(j, b.rows[j], x, removed, SetNull) ==> Points(j, b.rows[j], x, k, SetNull);
    }
  }

  lemma NothingOpen(db: Db, removed: set<RowKey>, k: RowKey)
    requires OpenAt(db, removed, k, {})
    ensures Closed(db, removed)
  {
  }

  /** Deletes a row: rows that refer to it are deleted too or lose the reference, in any order. */
  method DeleteRow(e: Database, k: RowKey) returns (ghost removed: set<RowKey>)
    requires Revisioned(e.St()) && k in e.rows
    modifies e
    ensures Removes(old(e.St()), e.St(), {k}, removed) && k in removed && Closed(e.St(), removed)
    decreases e.rows.Keys
  {
    ghost var a := e.St();
    RemoveOne(a, k);
    e.rows := e.rows - {k};
    removed := {k};
    var todo := set j | j in e.rows && (RefersTo(j, e.rows[j], k, Cascade) || RefersTo(j, e.rows[j], k, SetNull));
    OpenAtStart(e.St(), k, todo);
    while todo != {}
      invariant Removes(a, e.St(), {k}, removed) && k in removed
      invariant OpenAt(e.St(), removed, k, todo)
      decreases todo
    {
      var j :| j in todo;
      ghost var b := e.St();
      if j in e.rows {
        if RefersTo(j, e.rows[j], k, Cascade) {
          assert k in a.rows.Keys && k !in e.rows.Keys;
          ghost var sub := DeleteRow(e, j);
          OpenAfterCascade(a, b, e.St(), k, removed, j, sub, todo);
          removed := removed + sub;
        } else {
          RemovesSurvives(a, {k}, removed, k);
          NullColumns(e, j, k, db => Removes(a, db, {k}, removed));
          OpenAfterNull(b, e.St(), k, removed, j, todo);
        }
      }
      todo := todo - {j};
    }
    NothingOpen(e.St(), removed, k);
  }

  // ---------------------------------------------------------------------------------------------
  // Deleting all rows that a statement matches

  /** Tables whose rows are deleted only by statements of their own. */
  predicate NeverCascades(t: Table) {
    t != Processes && t != Denials && t != RunEnv
  }

  lemma NoCascade(j: RowKey, d: Data, removed: set<RowKey>)
    requires NeverCascades(j.table)
    ensures !Cascades(j, d, removed)
  {
  }

  lemma MoreRoots(a: Db, b: Db, roots: set<RowKey>, more: set<RowKey>, removed: set<RowKey>)
    requires Removes(a, b, roots, removed) && roots <= more
    ensures Removes(a, b, more, removed)
  {
  }

  lemma RemovesNothing(a: Db)
    requires Revisioned(a)
    ensures Removes(a, a, {}, {}) && Closed(a, {})
  {
  }

  lemma Accumulate(a: Db, b: Db, c: Db, roots: set<RowKey>, removed: set<RowKey>, which: set<RowKey>, sub: set<RowKey>)
    requires Removes(a, b, roots, removed) && Closed(b, removed) && Removes(b, c, which, sub) && Closed(c, sub)
    ensures Removes(a, c, roots + which, removed + sub) && Closed(c, removed + sub)
  {
    MoreRoots(a, b, roots, roots + which, removed);
    RemovesTransitive(a, b, c, roots + which, removed, which, sub);
    ClosedStays(b, c, which, sub, removed);
  }

  /** Rows of tables that nothing cascades to are removed exactly if they are roots. */
  lemma RemovedRoots(a: Db, b: Db, roots: set<RowKey>, removed: set<RowKey>, k: RowKey)
    requires Removes(a, b, roots, removed) && NeverCascades(k.table) && k in removed
    ensures k in roots
  {
    NoCascade(k, a.rows[k], removed);
  }

  /** These roots were deleted, with all that follows from it. */
  predicate Swept(a: Db, b: Db, roots: set<RowKey>, removed: set<RowKey>) {
    Removes(a, b, roots, removed) && Closed(b, removed) && roots <= removed
  }

  method DeleteNext(e: Database, k: RowKey, ghost a: Db, ghost roots: set<RowKey>, ghost removed: set<RowKey>)
    returns (ghost removed': set<RowKey>)
    requires Swept(a, e.St(), roots, removed) && k in a.rows && k !in roots && NeverCascades(k.table)
    modifies e
    ensures Swept(a, e.St(), roots + {k}, removed')
  {
    if k in removed {
      RemovedRoots(a, e.St(), roots, removed, k);
    }
    ghost var b := e.St();
    ghost var sub := DeleteRow(e, k);
    Accumulate(a, b, e.St(), roots, removed, {k}, sub);
    removed' := removed + sub;
  }

  /** DELETE of the matched rows, in any order; n counts them without what cascades from them. */
  method DeleteAll(e: Database, which: set<RowKey>) returns (n: nat, ghost removed: set<RowKey>)
    requires Revisioned(e.St()) && which <= e.rows.Keys && forall k | k in which :: NeverCascades(k.table)
    modifies e
    ensures Swept(old(e.St()), e.St(), which, removed) && n == |which|
  {
    ghost var a := e.St();
    RemovesNothing(a);
    removed := {};
    var todo := which;
    assert which - todo == {};
    while todo != {}
      invariant todo <= which && Swept(a, e.St(), which - todo, removed)
      decreases todo
    {
      var k :| k in todo;
      removed := DeleteNext(e, k, a, which - todo, removed);
      assert which - todo + {k} == which - (todo - {k});
      todo := todo - {k};
    }
    assert which - todo == which;
    n := |which|;
  }

  // ---------------------------------------------------------------------------------------------
  // What pruning keeps

  predicate Older(d: Data, c: Column, cutoff: int) {
    c in d && d[c].Integer? && d[c].i < cutoff
  }

  /** A run or orphan at or after the cutoff. */
  predicate Recent(j: RowKey, d: Data, cutoff: int) {
    (j.table == Runs && !Older(d, StartedAt, cutoff)) || (j.table == Orphans && !Older(d, Time, cutoff))
  }

  /** The column by which runs and orphans use watches, sessions and profiles. */
  function UseColumn(t: Table): Column {
    if t == Watches then WatchId else if t == Sessions then SessionId else ProfileHash
  }

  predicate Uses(j: RowKey, d: Data, k: RowKey) {
    && (j.table == Runs || j.table == Orphans)
    && var c := UseColumn(k.table);
       RefOf(j.table, c).Reference? && RefOf(j.table, c).parent == k.table && c in d && d[c] == k.key && k.key != Null
  }

  predicate UsedByRecent(a: Db, cutoff: int, k: RowKey) {
    exists j | j in a.rows :: Recent(j, a.rows[j], cutoff) && Uses(j, a.rows[j], k)
  }

  /** Pruning deletes this row with a statement of its own. */
  predicate Doomed(a: Db, cutoff: int, k: RowKey)
    requires k in a.rows
  {
    match k.table
    case Runs => Older(a.rows[k], StartedAt, cutoff)
    case Orphans => Older(a.rows[k], Time, cutoff)
    case Watches => Older(a.rows[k], StartedAt, cutoff) && !UsedByRecent(a, cutoff, k)
    case Sessions => !UsedByRecent(a, cutoff, k)
    case Profiles => !UsedByRecent(a, cutoff, k)
    case _ => false
  }

  /** Column c of the row names an existing, recent run. */
  predicate InRecentRun(a: Db, cutoff: int, d: Data) {
    RunId in d && RowKey(Runs, d[RunId]) in a.rows && !Older(a.rows[RowKey(Runs, d[RunId])], StartedAt, cutoff)
  }

  /** What is left after pruning: recent runs and orphans, the dependents of recent runs, sessions and
    profiles that recent runs use, and watches that are recent or that recent rows use. */
  predicate Kept(a: Db, cutoff: int, k: RowKey)
    requires k in a.rows
  {
    match k.table
    case RunEnv => InRecentRun(a, cutoff, a.rows[k])
    case Processes => InRecentRun(a, cutoff, a.rows[k])
    case Denials =>
      && InRecentRun(a, cutoff, a.rows[k])
      && ProcessId in a.rows[k]
      && RowKey(Processes, a.rows[k][ProcessId]) in a.rows
      && InRecentRun(a, cutoff, a.rows[RowKey(Processes, a.rows[k][ProcessId])])
    case _ => !Doomed(a, cutoff, k)
  }

  // ---------------------------------------------------------------------------------------------
  // The statements, one after the other

  /** The rows that the statement of each step matches. */
  function Matches(db: Db, step: nat, cutoff: int): (which: set<RowKey>)
    ensures which <= db.rows.Keys
  {
    match step
    case 0 => set k | k in db.rows && k.table == Runs && Older(db.rows[k], StartedAt, cutoff)
    case 1 => set k | k in db.rows && k.table == Orphans && Older(db.rows[k], Time, cutoff)
    case 2 => set k | k in db.rows && k.table == Watches && Older(db.rows[k], StartedAt, cutoff) && !InUse(db, k)
    case 3 => set k | k in db.rows && k.table == Sessions && !InUse(db, k)
    case 4 => set k | k in db.rows && k.table == Profiles && !InUse(db, k)
    case _ => {}
  }

  predicate InUse(db: Db, k: RowKey) {
    exists j | j in db.rows :: Uses(j, db.rows[j], k)
  }

  function StepOf(t: Table): nat {
    match t
    case Runs => 0
    case Orphans => 1
    case Watches => 2
    case Sessions => 3
    case Profiles => 4
    case _ => 5
  }

  /** The rows that the statements before `step` delete, told from the state before pruning. */
  function DoomedBefore(a: Db, cutoff: int, step: nat): set<RowKey> {
    set k | k in a.rows && StepOf(k.table) < step && Doomed(a, cutoff, k)
  }

  function DoomedAt(a: Db, cutoff: int, step: nat): set<RowKey> {
    set k | k in a.rows && StepOf(k.table) == step && Doomed(a, cutoff, k)
  }

  /** Dates and uses of watches and profiles never change. */
  lemma PlainColumnStays(a: Db, b: Db, roots: set<RowKey>, removed: set<RowKey>, j: RowKey, c: Column)
    requires Removes(a, b, roots, removed) && j in b.rows && c != Rev
    requires RefOf(j.table, c).NoReference? || RefOf(j.table, c).action != SetNull
    ensures (c in a.rows[j] <==> c in b.rows[j]) && (c in b.rows[j] ==> b.rows[j][c] == a.rows[j][c])
  {
    assert RowAfter(j, a.rows[j], b.rows[j], removed, a.counter);
    if c in a.rows[j] {
      OtherColumnsStay(j, a.rows[j], b.rows[j], removed, a.counter, c);
    }
  }

  lemma DatesStay(a: Db, b: Db, roots: set<RowKey>, removed: set<RowKey>, j: RowKey, cutoff: int)
    requires Removes(a, b, roots, removed) && j in b.rows
    ensures Older(b.rows[j], StartedAt, cutoff) == Older(a.rows[j], StartedAt, cutoff)
    ensures Older(b.rows[j], Time, cutoff) == Older(a.rows[j], Time, cutoff)
    ensures Recent(j, b.rows[j], cutoff) == Recent(j, a.rows[j], cutoff)
  {
    PlainColumnStays(a, b, roots, removed, j, StartedAt);
    PlainColumnStays(a, b, roots, removed, j, Time);
  }

  /** A row that stays uses what it used before, unless that was removed. */
  lemma UsesStay(a: Db, b: Db, roots: set<RowKey>, removed: set<RowKey>, j: RowKey, k: RowKey)
    requires Removes(a, b, roots, removed) && j in b.rows && k !in removed
    ensures Uses(j, b.rows[j], k) == Uses(j, a.rows[j], k)
  {
    var c := UseColumn(k.table);
    assert RowAfter(j, a.rows[j], b.rows[j], removed, a.counter);
    assert RefOf(j.table, Rev).NoReference?;
    if b.rows[j] != a.rows[j] && c in a.rows[j] && RefOf(j.table, c).Reference? {
      assert ColumnAfter(j, a.rows[j], b.rows[j], c, removed);
    }
  }

  /** Once the old runs and orphans are gone, what is in use is what recent rows used before. */
  lemma InUseIsRecent(a: Db, b: Db, removed: set<RowKey>, cutoff: int, step: nat, k: RowKey)
    requires Swept(a, b, DoomedBefore(a, cutoff, step), removed) && step >= 2 && k in b.rows && InUse(b, k)
    ensures UsedByRecent(a, cutoff, k)
  {
    var j :| j in b.rows && Uses(j, b.rows[j], k);
    UsesStay(a, b, DoomedBefore(a, cutoff, step), removed, j, k);
    assert j !in DoomedBefore(a, cutoff, step);
    assert Recent(j, a.rows[j], cutoff);
  }

  lemma RecentStays(a: Db, b: Db, removed: set<RowKey>, cutoff: int, step: nat, j: RowKey)
    requires Swept(a, b, DoomedBefore(a, cutoff, step), removed) && j in a.rows && Recent(j, a.rows[j], cutoff)
    ensures j in b.rows
  {
    if j in removed {
      RemovedRoots(a, b, DoomedBefore(a, cutoff, step), removed, j);
    }
  }

  lemma RecentIsInUse(a: Db, b: Db, removed: set<RowKey>, cutoff: int, step: nat, k: RowKey)
    requires Swept(a, b, DoomedBefore(a, cutoff, step), removed) && k in b.rows && UsedByRecent(a, cutoff, k)
    ensures InUse(b, k)
  {
    var j :| j in a.rows && Recent(j, a.rows[j], cutoff) && Uses(j, a.rows[j], k);
    RecentStays(a, b, removed, cutoff, step, j);
    UsesStay(a, b, DoomedBefore(a, cutoff, step), removed, j, k);
  }

  lemma NotYetDeleted(a: Db, b: Db, removed: set<RowKey>, cutoff: int, step: nat, k: RowKey)
    requires Swept(a, b, DoomedBefore(a, cutoff, step), removed) && step < 5 && k in a.rows && StepOf(k.table) == step
    ensures k in b.rows && (Older(b.rows[k], StartedAt, cutoff) == Older(a.rows[k], StartedAt, cutoff))
    ensures Older(b.rows[k], Time, cutoff) == Older(a.rows[k], Time, cutoff)
  {
    if k in removed {
      RemovedRoots(a, b, DoomedBefore(a, cutoff, step), removed, k);
    }
    DatesStay(a, b, DoomedBefore(a, cutoff, step), removed, k, cutoff);
  }

  lemma MatchesDoomed(a: Db, b: Db, removed: set<RowKey>, cutoff: int, step: nat, k: RowKey)
    requires Swept(a, b, DoomedBefore(a, cutoff, step), removed) && step < 5
    ensures k in Matches(b, step, cutoff) <==> k in a.rows && StepOf(k.table) == step && Doomed(a, cutoff, k)
  {
    if StepOf(k.table) == step && k in a.rows {
      NotYetDeleted(a, b, removed, cutoff, step, k);
      if step >= 2 && InUse(b, k) {
        InUseIsRecent(a, b, removed, cutoff, step, k);
      }
      if step >= 2 && UsedByRecent(a, cutoff, k) {
        RecentIsInUse(a, b, removed, cutoff, step, k);
      }
    }
  }

  lemma NextStatement(a: Db, b: Db, removed: set<RowKey>, cutoff: int, step: nat)
    requires Swept(a, b, DoomedBefore(a, cutoff, step), removed) && step < 5
    ensures DoomedBefore(a, cutoff, step + 1) == DoomedBefore(a, cutoff, step) + Matches(b, step, cutoff)
    ensures Matches(b, step, cutoff) == DoomedAt(a, cutoff, step)
    ensures forall k | k in Matches(b, step, cutoff) :: NeverCascades(k.table)
  {
    forall k ensures k in Matches(b, step, cutoff) <==> k in a.rows && StepOf(k.table) == step && Doomed(a, cutoff, k) {
      MatchesDoomed(a, b, removed, cutoff, step, k);
    }
  }

  // ---------------------------------------------------------------------------------------------
  // What is left

  /** Everything pruning does: exactly the rows to keep stay, those that lost a reference have a new
    revision, nothing else changes, and no reference dangles. */
  predicate Pruned(a: Db, b: Db, removed: set<RowKey>, cutoff: int) {
    && Swept(a, b, DoomedBefore(a, cutoff, 5), removed)
    && (forall k | k in a.rows :: k in b.rows <==> Kept(a, cutoff, k))
    && Intact(b)
  }

  lemma RootTablesKept(a: Db, b: Db, removed: set<RowKey>, cutoff: int, k: RowKey)
    requires Swept(a, b, DoomedBefore(a, cutoff, 5), removed) && k in a.rows && NeverCascades(k.table)
    ensures k in b.rows <==> !Doomed(a, cutoff, k)
  {
    if k in removed {
      RemovedRoots(a, b, DoomedBefore(a, cutoff, 5), removed, k);
    }
  }

  /** A row that stays still has the parents it cascades from. */
  lemma ParentStays(a: Db, b: Db, roots: set<RowKey>, removed: set<RowKey>, k: RowKey, c: Column)
    requires Swept(a, b, roots, removed) && Intact(a) && k in b.rows && c in a.rows[k] && a.rows[k][c] != Null
    requires RefOf(k.table, c).Reference? && RefOf(k.table, c).action == Cascade
    ensures RowKey(RefOf(k.table, c).parent, a.rows[k][c]) in b.rows
  {
    PlainColumnStays(a, b, roots, removed, k, c);
    assert !PointsInto(k, b.rows[k], c, removed, Cascade);
  }

  predicate HasColumn(a: Db, k: RowKey, c: Column) {
    k in a.rows && c in a.rows[k] && a.rows[k][c] != Null
  }

  /** The columns that the schema declares NOT NULL and pruning follows. */
  predicate CascadeColumns(a: Db) {
    forall k | k in a.rows ::
      && (k.table == Processes || k.table == RunEnv || k.table == Denials ==> HasColumn(a, k, RunId))
      && (k.table == Denials ==> HasColumn(a, k, ProcessId))
  }

  /** What is removed without a statement of its own lost a row it cascades from. */
  lemma RemovedWithParent(a: Db, b: Db, removed: set<RowKey>, cutoff: int, k: RowKey)
    requires Swept(a, b, DoomedBefore(a, cutoff, 5), removed) && k in removed && !NeverCascades(k.table)
    ensures
      || (RunId in a.rows[k] && RowKey(Runs, a.rows[k][RunId]) in removed)
      || (k.table == Denials && ProcessId in a.rows[k] && RowKey(Processes, a.rows[k][ProcessId]) in removed)
  {
    assert k !in DoomedBefore(a, cutoff, 5) && (k in DoomedBefore(a, cutoff, 5) || Cascades(k, a.rows[k], removed));
    var c :| c in a.rows[k] && PointsInto(k, a.rows[k], c, removed, Cascade);
    assert c == RunId || c == ProcessId;
  }

  lemma RunOf(a: Db, b: Db, removed: set<RowKey>, cutoff: int, k: RowKey)
    requires Swept(a, b, DoomedBefore(a, cutoff, 5), removed) && Intact(a) && CascadeColumns(a)
    requires k in a.rows && !NeverCascades(k.table) && KnownTable(k.table)
    ensures HasColumn(a, k, RunId)
    ensures RowKey(Runs, a.rows[k][RunId]) in b.rows <==> InRecentRun(a, cutoff, a.rows[k])
    ensures k in b.rows ==> RowKey(Runs, a.rows[k][RunId]) in b.rows
  {
    assert HasColumn(a, k, RunId);
    assert RefOf(k.table, RunId) == Reference(Runs, Cascade);
    var run := RowKey(Runs, a.rows[k][RunId]);
    assert run in a.rows;
    RootTablesKept(a, b, removed, cutoff, run);
    if k in b.rows {
      ParentStays(a, b, DoomedBefore(a, cutoff, 5), removed, k, RunId);
    }
  }

  lemma DependentsOfRuns(a: Db, b: Db, removed: set<RowKey>, cutoff: int, k: RowKey)
    requires Swept(a, b, DoomedBefore(a, cutoff, 5), removed) && Intact(a) && CascadeColumns(a)
    requires k in a.rows && (k.table == Processes || k.table == RunEnv)
    ensures k in b.rows <==> InRecentRun(a, cutoff, a.rows[k])
  {
    RunOf(a, b, removed, cutoff, k);
    if k in removed {
      RemovedWithParent(a, b, removed, cutoff, k);
    }
  }

  lemma ProcessOf(a: Db, b: Db, removed: set<RowKey>, cutoff: int, k: RowKey)
    requires Swept(a, b, DoomedBefore(a, cutoff, 5), removed) && Intact(a) && CascadeColumns(a)
    requires k in a.rows && k.table == Denials
    ensures HasColumn(a, k, ProcessId) && RowKey(Processes, a.rows[k][ProcessId]) in a.rows
    ensures k in b.rows ==> RowKey(Processes, a.rows[k][ProcessId]) in b.rows
  {
    assert HasColumn(a, k, ProcessId);
    assert RefOf(k.table, ProcessId) == Reference(Processes, Cascade);
    if k in b.rows {
      ParentStays(a, b, DoomedBefore(a, cutoff, 5), removed, k, ProcessId);
    }
  }

  lemma DependentsOfProcesses(a: Db, b: Db, removed: set<RowKey>, cutoff: int, k: RowKey)
    requires Swept(a, b, DoomedBefore(a, cutoff, 5), removed) && Intact(a) && CascadeColumns(a)
    requires k in a.rows && k.table == Denials
    ensures k in b.rows <==> Kept(a, cutoff, k)
  {
    RunOf(a, b, removed, cutoff, k);
    ProcessOf(a, b, removed, cutoff, k);
    DependentsOfRuns(a, b, removed, cutoff, RowKey(Processes, a.rows[k][ProcessId]));
    if k in removed {
      RemovedWithParent(a, b, removed, cutoff, k);
    }
  }

  lemma SweptIsKept(a: Db, b: Db, removed: set<RowKey>, cutoff: int, k: RowKey)
    requires Swept(a, b, DoomedBefore(a, cutoff, 5), removed) && Intact(a) && CascadeColumns(a) && k in a.rows
    requires KnownTable(k.table)
    ensures k in b.rows <==> Kept(a, cutoff, k)
  {
    match k.table {
      case Processes => DependentsOfRuns(a, b, removed, cutoff, k);
      case RunEnv => DependentsOfRuns(a, b, removed, cutoff, k);
      case Denials => DependentsOfProcesses(a, b, removed, cutoff, k);
      case _ => RootTablesKept(a, b, removed, cutoff, k);
    }
  }

  /** No reference dangles: those with an action were followed, and what the others name is in use. */
  lemma SweptIsIntact(a: Db, b: Db, removed: set<RowKey>, cutoff: int, j: RowKey, c: Column)
    requires Swept(a, b, DoomedBefore(a, cutoff, 5), removed) && Intact(a)
    requires j in b.rows && c in b.rows[j] && b.rows[j][c] != Null && RefOf(j.table, c).Reference?
    ensures RowKey(RefOf(j.table, c).parent, b.rows[j][c]) in b.rows
  {
    var roots := DoomedBefore(a, cutoff, 5);
    var k := RowKey(RefOf(j.table, c).parent, b.rows[j][c]);
    assert RowAfter(j, a.rows[j], b.rows[j], removed, a.counter);
    PointsSame(j, a.rows[j], b.rows[j], removed, a.counter, c);
    assert k in a.rows;
    if k in removed && RefOf(j.table, c).action == NoAction {
      RemovedRoots(a, b, roots, removed, k);
      assert Uses(j, a.rows[j], k);
      assert j !in roots;
      assert Recent(j, a.rows[j], cutoff);
      assert UsedByRecent(a, cutoff, k);
    }
  }

  predicate KnownTables(a: Db) {
    forall k | k in a.rows :: KnownTable(k.table)
  }

  lemma SweptIsPruned(a: Db, b: Db, removed: set<RowKey>, cutoff: int)
    requires Swept(a, b, DoomedBefore(a, cutoff, 5), removed) && Intact(a) && CascadeColumns(a) && KnownTables(a)
    ensures Pruned(a, b, removed, cutoff)
  {
    forall k | k in a.rows ensures k in b.rows <==> Kept(a, cutoff, k) {
      SweptIsKept(a, b, removed, cutoff, k);
    }
    forall j, c | j in b.rows && c in b.rows[j] && b.rows[j][c] != Null && RefOf(j.table, c).Reference?
      ensures RowKey(RefOf(j.table, c).parent, b.rows[j][c]) in b.rows
    {
      SweptIsIntact(a, b, removed, cutoff, j, c);
    }
  }

  /** How many rows each statement deleted: runs, orphans, watches, sessions, profiles. */
  type Stats = seq<nat>

  method Execute(e: Database, step: nat, cutoff: int, ghost a: Db, ghost removed: set<RowKey>)
    returns (n: nat, ghost removed': set<RowKey>)
    requires Swept(a, e.St(), DoomedBefore(a, cutoff, step), removed) && step < 5
    modifies e
    ensures Swept(a, e.St(), DoomedBefore(a, cutoff, step + 1), removed') && n == |DoomedAt(a, cutoff, step)|
  {
    NextStatement(a, e.St(), removed, cutoff, step);
    ghost var b := e.St();
    ghost var sub;
    n, sub := DeleteAll(e, Matches(Db(e.rows, e.counter), step, cutoff));
    Accumulate(a, b, e.St(), DoomedBefore(a, cutoff, step), removed, Matches(b, step, cutoff), sub);
    removed' := removed + sub;
  }

  /** The five statements in their order: the two that go by age, then the three that go by whether
    some remaining row still refers to the row. */
  method Prune(e: Database, cutoff: int) returns (stats: Stats, ghost removed: set<RowKey>)
    requires Revisioned(e.St()) && Intact(e.St()) && CascadeColumns(e.St()) && KnownTables(e.St())
    modifies e
    ensures Pruned(old(e.St()), e.St(), removed, cutoff)
    ensures |stats| == 5
    ensures forall i | 0 <= i < 5 :: stats[i] == |set k | k in old(e.rows) && StepOf(k.table) == i && k !in e.rows|
  {
    ghost var a := e.St();
    RemovesNothing(a);
    removed, stats := {}, [];
    assert DoomedBefore(a, cutoff, 0) == {};
    var step: nat := 0;
    while step < 5
      invariant step <= 5 && Swept(a, e.St(), DoomedBefore(a, cutoff, step), removed)
      invariant |stats| == step && forall i | 0 <= i < step :: stats[i] == |DoomedAt(a, cutoff, i)|
    {
      var n;
      n, removed := Execute(e, step, cutoff, a, removed);
      stats := stats + [n];
      step := step + 1;
    }
    SweptIsPruned(a, e.St(), removed, cutoff);
    CountsAreDeletions(a, e.St(), removed, cutoff);
  }

  lemma CountsAreDeletions(a: Db, b: Db, removed: set<RowKey>, cutoff: int)
    requires Swept(a, b, DoomedBefore(a, cutoff, 5), removed)
    ensures forall i | 0 <= i < 5 :: DoomedAt(a, cutoff, i) == set k | k in a.rows && StepOf(k.table) == i && k !in b.rows
  {
    forall k | k in a.rows && StepOf(k.table) < 5 ensures k in b.rows <==> !Doomed(a, cutoff, k) {
      RootTablesKept(a, b, removed, cutoff, k);
    }
  }

  // ---------------------------------------------------------------------------------------------
  // Consequences

  /** Rows that pruning changed have revisions that were not issued before. */
  lemma PruneEvolves(a: Db, b: Db, removed: set<RowKey>, cutoff: int)
    requires Pruned(a, b, removed, cutoff)
    ensures Evolves(a, b)
  {
    RemovesEvolves(a, b, DoomedBefore(a, cutoff, 5), removed);
  }

  /** A row that referred to a pruned row has NULL there now, and a revision not issued before. */
  lemma PruneRestamps(a: Db, b: Db, removed: set<RowKey>, cutoff: int, j: RowKey, c: Column)
    requires Pruned(a, b, removed, cutoff) && j in b.rows && PointsInto(j, a.rows[j], c, removed, SetNull)
    ensures c in b.rows[j] && b.rows[j][c] == Null && HasRev(b.rows[j]) && RevOf(b.rows[j]) > a.counter
  {
    NulledRowsAreRestamped(a, b, DoomedBefore(a, cutoff, 5), removed, j, c);
  }

  /** What pruning asks of the database holds again afterwards. */
  lemma PruneKeepsColumns(a: Db, b: Db, removed: set<RowKey>, cutoff: int)
    requires Pruned(a, b, removed, cutoff) && CascadeColumns(a) && KnownTables(a)
    ensures Revisioned(b) && Intact(b) && CascadeColumns(b) && KnownTables(b)
  {
    forall k | k in b.rows
      ensures k.table == Processes || k.table == RunEnv || k.table == Denials ==> HasColumn(b, k, RunId)
      ensures k.table == Denials ==> HasColumn(b, k, ProcessId)
    {
      ColumnStays(a, b, DoomedBefore(a, cutoff, 5), removed, k, RunId);
      ColumnStays(a, b, DoomedBefore(a, cutoff, 5), removed, k, ProcessId);
    }
  }

  lemma ColumnStays(a: Db, b: Db, roots: set<RowKey>, removed: set<RowKey>, k: RowKey, c: Column)
    requires Removes(a, b, roots, removed) && k in b.rows && (c == RunId || c == ProcessId)
    ensures HasColumn(a, k, c) ==> HasColumn(b, k, c)
  {
    PlainColumnStays(a, b, roots, removed, k, c);
  }

  lemma StillUsed(a: Db, b: Db, removed: set<RowKey>, cutoff: int, k: RowKey)
    requires Pruned(a, b, removed, cutoff) && k in b.rows && UsedByRecent(a, cutoff, k)
    ensures UsedByRecent(b, cutoff, k)
  {
    var j :| j in a.rows && Recent(j, a.rows[j], cutoff) && Uses(j, a.rows[j], k);
    assert Kept(a, cutoff, j);
    DatesStay(a, b, DoomedBefore(a, cutoff, 5), removed, j, cutoff);
    UsesStay(a, b, DoomedBefore(a, cutoff, 5), removed, j, k);
  }

  /** Nothing that is left would be deleted at the same cutoff. */
  lemma NothingDoomed(a: Db, b: Db, removed: set<RowKey>, cutoff: int, k: RowKey)
    requires Pruned(a, b, removed, cutoff) && k in b.rows
    ensures !Doomed(b, cutoff, k)
  {
    assert Kept(a, cutoff, k);
    DatesStay(a, b, DoomedBefore(a, cutoff, 5), removed, k, cutoff);
    if UsedByRecent(a, cutoff, k) {
      StillUsed(a, b, removed, cutoff, k);
    }
  }

  function CascadeDepth(t: Table): nat {
    if NeverCascades(t) then 0 else if t == Denials then 2 else 1
  }

  lemma CascadeParent(j: RowKey, d: Data, removed: set<RowKey>) returns (k: RowKey)
    requires Cascades(j, d, removed)
    ensures k in removed && CascadeDepth(k.table) < CascadeDepth(j.table)
  {
    var c :| c in d && PointsInto(j, d, c, removed, Cascade);
    k := RowKey(RefOf(j.table, c).parent, d[c]);
  }

  /** What cascades goes back to a deleted row. */
  lemma {:induction false} NoRootsNoRemovals(rows: map<RowKey, Data>, removed: set<RowKey>, k: RowKey)
    requires forall j | j in removed :: j in rows && Cascades(j, rows[j], removed)
    ensures k !in removed
    decreases CascadeDepth(k.table)
  {
    if k in removed {
      var parent := CascadeParent(k, rows[k], removed);
      NoRootsNoRemovals(rows, removed, parent);
    }
  }

  /** A second prune at the same cutoff changes nothing, not even a revision. */
  lemma PruneTwice(a: Db, b: Db, c: Db, removed: set<RowKey>, again: set<RowKey>, cutoff: int)
    requires Pruned(a, b, removed, cutoff) && Pruned(b, c, again, cutoff)
    ensures c == b
  {
    forall k | k in b.rows ensures !Doomed(b, cutoff, k) {
      NothingDoomed(a, b, removed, cutoff, k);
    }
    assert DoomedBefore(b, cutoff, 5) == {};
    forall k ensures k !in again {
      NoRootsNoRemovals(b.rows, again, k);
    }
    assert again == {};
  }
}
