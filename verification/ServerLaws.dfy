/** What the merge of batches guarantees, for any batches in any order and any number of times. */
module ServerLaws {
  import opened Wire
  import opened Server

  // ---------------------------------------------------------------------------------------------
  // The order of revisions

  lemma {:induction false} BeforeIrreflexive(a: string)
    ensures !Before(a, a)
    decreases |a|
  {
    if a != [] {
      BeforeIrreflexive(a[1..]);
    }
  }

  lemma {:induction false} BeforeTransitive(a: string, b: string, c: string)
    requires Before(a, b) && Before(b, c)
    ensures Before(a, c)
    decreases |a|
  {
    if a != [] && a[0] == b[0] && b[0] == c[0] {
      BeforeTransitive(a[1..], b[1..], c[1..]);
    }
  }

  lemma GreaterIrreflexive(a: Val)
    ensures !Greater(a, a)
  {
    if a.Str? {
      BeforeIrreflexive(a.s);
    }
  }

  lemma GreaterTransitive(a: Val, b: Val, c: Val)
    requires Greater(a, b) && Greater(b, c)
    ensures Greater(a, c)
  {
    if a.Str? && b.Str? && c.Str? {
      BeforeTransitive(c.s, b.s, a.s);
    }
  }

  // ---------------------------------------------------------------------------------------------
  // One row

  /** The row, or a newer version of it, is mirrored already. */
  predicate Absorbed(m: Mirror, src: Source, r: Row)
    requires MirrorOk(m) && RowOk(r)
  {
    KeyOf(src, r) in m && !Greater(StoredData(r)[Rev], m[KeyOf(src, r)][Rev])
  }

  /** The row did not go back to an older revision, and lost no reference. */
  predicate RowAdvances(was: Data, now: Data) {
    && Rev in was && Rev in now
    && (now[Rev] == was[Rev] || Greater(now[Rev], was[Rev]))
    && forall c | c in was && IsReference(c) && was[c] != Null :: c in now && now[c] != Null
  }

  /** No mirrored row is lost, goes back to an older revision, or loses a reference. */
  predicate Advances(m: Mirror, m': Mirror) {
    forall k | k in m :: k in m' && RowAdvances(m[k], m'[k])
  }

  /** Rows of other endpoint databases are the same. */
  ghost predicate OthersSame(m: Mirror, m': Mirror, src: Source) {
    forall k: MirrorKey | Source(k.host, k.instance) != src :: (k in m <==> k in m') && (k in m ==> m'[k] == m[k])
  }

  lemma MergeAdvances(t: Table, was: Data, now: Data)
    requires Rev in was && Rev in now && Greater(now[Rev], was[Rev])
    ensures RowAdvances(was, Merge(t, was, now)) && Merge(t, was, now)[Rev] == now[Rev]
  {
    assert KeyColumn(t) != Rev && !IsReference(Rev);
  }

  lemma UpsertAdvances(m: Mirror, src: Source, r: Row)
    requires MirrorOk(m) && RowOk(r)
    ensures Advances(m, Upsert(m, src, r)) && OthersSame(m, Upsert(m, src, r), src)
    ensures Absorbed(Upsert(m, src, r), src, r)
  {
    var k := KeyOf(src, r);
    var d := StoredData(r);
    GreaterIrreflexive(d[Rev]);
    if k in m && Greater(d[Rev], m[k][Rev]) {
      MergeAdvances(r.table, m[k], d);
    }
    forall x | x in m ensures x in Upsert(m, src, r) && RowAdvances(m[x], Upsert(m, src, r)[x]) {
    }
  }

  lemma AdvancesTransitive(a: Mirror, b: Mirror, c: Mirror)
    requires Advances(a, b) && Advances(b, c)
    ensures Advances(a, c)
  {
    forall k | k in a ensures k in c && RowAdvances(a[k], c[k]) {
      assert k in b;
      if Greater(b[k][Rev], a[k][Rev]) && Greater(c[k][Rev], b[k][Rev]) {
        GreaterTransitive(c[k][Rev], b[k][Rev], a[k][Rev]);
      }
    }
  }

  lemma AbsorbedStays(m: Mirror, m': Mirror, src: Source, r: Row)
    requires MirrorOk(m) && MirrorOk(m') && RowOk(r) && Advances(m, m') && Absorbed(m, src, r)
    ensures Absorbed(m', src, r)
  {
    var k := KeyOf(src, r);
    var d := StoredData(r);
    assert RowAdvances(m[k], m'[k]);
    if Greater(d[Rev], m'[k][Rev]) && Greater(m'[k][Rev], m[k][Rev]) {
      GreaterTransitive(d[Rev], m'[k][Rev], m[k][Rev]);
    }
  }

  // ---------------------------------------------------------------------------------------------
  // Batches

  lemma {:induction false} UpsertAllAdvances(m: Mirror, src: Source, rows: seq<Row>)
    requires MirrorOk(m) && RowsOk(rows)
    ensures Advances(m, UpsertAll(m, src, rows))
    decreases |rows|
  {
    if rows == [] {
      NothingAdvances(m);
    } else {
      var n := |rows| - 1;
      var m1 := UpsertAll(m, src, rows[..n]);
      UpsertAllAdvances(m, src, rows[..n]);
      UpsertAdvances(m1, src, rows[n]);
      AdvancesTransitive(m, m1, Upsert(m1, src, rows[n]));
    }
  }

  lemma NothingAdvances(m: Mirror)
    requires MirrorOk(m)
    ensures Advances(m, m)
  {
  }

  lemma {:induction false} UpsertAllAbsorbs(m: Mirror, src: Source, rows: seq<Row>, i: nat)
    requires MirrorOk(m) && RowsOk(rows) && i < |rows|
    ensures Absorbed(UpsertAll(m, src, rows), src, rows[i])
    decreases |rows|
  {
    var n := |rows| - 1;
    if i < n {
      assert rows[..n][i] == rows[i];
      UpsertAllAbsorbs(m, src, rows[..n], i);
    }
    UpsertAbsorbs(UpsertAll(m, src, rows[..n]), src, rows[n], rows[i]);
  }

  lemma UpsertAbsorbs(m: Mirror, src: Source, next: Row, r: Row)
    requires MirrorOk(m) && RowOk(next) && RowOk(r) && (r == next || Absorbed(m, src, r))
    ensures Absorbed(Upsert(m, src, next), src, r)
  {
    UpsertAdvances(m, src, next);
    if r != next {
      AbsorbedStays(m, Upsert(m, src, next), src, r);
    }
  }

  lemma {:induction false} UpsertAllKeepsOthers(m: Mirror, src: Source, rows: seq<Row>)
    requires MirrorOk(m) && RowsOk(rows)
    ensures OthersSame(m, UpsertAll(m, src, rows), src)
    decreases |rows|
  {
    if rows != [] {
      var n := |rows| - 1;
      UpsertAllKeepsOthers(m, src, rows[..n]);
      UpsertAdvances(UpsertAll(m, src, rows[..n]), src, rows[n]);
    }
  }

  lemma {:induction false} AbsorbedChangesNothing(m: Mirror, src: Source, rows: seq<Row>)
    requires MirrorOk(m) && RowsOk(rows) && forall i | 0 <= i < |rows| :: Absorbed(m, src, rows[i])
    ensures UpsertAll(m, src, rows) == m
    decreases |rows|
  {
    if rows != [] {
      AbsorbedChangesNothing(m, src, rows[..|rows| - 1]);
    }
  }

  lemma {:induction false} MaxRevBounds(rows: seq<Row>, r: Row)
    ensures r in rows ==> r.rev <= MaxRev(rows)
    decreases |rows|
  {
    if rows != [] {
      MaxRevBounds(rows[..|rows| - 1], r);
      assert rows == rows[..|rows| - 1] + [rows[|rows| - 1]];
    }
  }

  lemma {:induction false} MaxRevOfSome(rows: seq<Row>, some: seq<Row>)
    requires forall r | r in some :: r in rows
    ensures MaxRev(some) <= MaxRev(rows)
    decreases |some|
  {
    if some != [] {
      var n := |some| - 1;
      MaxRevOfSome(rows, some[..n]);
      MaxRevBounds(rows, some[n]);
    }
  }

  lemma RowsAgain(m: Mirror, src: Source, rows: seq<Row>, m1: Mirror, again: seq<Row>)
    requires MirrorOk(m) && MirrorOk(m1) && RowsOk(rows) && RowsOk(again)
    requires (forall r | r in again :: r in rows) && Advances(UpsertAll(m, src, rows), m1)
    ensures UpsertAll(m1, src, again) == m1
  {
    forall i | 0 <= i < |again| ensures Absorbed(m1, src, again[i]) {
      assert again[i] in rows;
      var j: nat :| j < |rows| && rows[j] == again[i];
      UpsertAllAbsorbs(m, src, rows, j);
      AbsorbedStays(UpsertAll(m, src, rows), m1, src, again[i]);
    }
    AbsorbedChangesNothing(m1, src, again);
  }

  /** Once a batch was stored, rows of it change nothing any more: neither the mirror nor the cursor,
    in any order, with any repetition, also after other batches of any source. */
  lemma RepeatedRowsAreIdle(s: ServerState, b: Batch, t: int, later: seq<Delivery>, again: Batch, t': int)
    requires MirrorOk(s.mirror) && Accepts(b) && Accepts(again) && SourceOf(again) == SourceOf(b)
    requires forall r | r in again.rows :: r in b.rows
    ensures
      var s1 := AppliedAll(Applied(s, b, t).0, later);
      var s2 := Applied(s1, again, t').0;
      s2.mirror == s1.mirror && s2.cursors == s1.cursors
  {
    var s0 := Applied(s, b, t).0;
    AppliedAllAdvances(s0, later);
    RowsAgain(s.mirror, SourceOf(b), b.rows, AppliedAll(s0, later).mirror, again.rows);
    MaxRevOfSome(b.rows, again.rows);
  }

  /** A batch, and when it arrives. */
  datatype Delivery = Delivery(batch: Batch, at: int)

  /** The server's state after batches of any sources. */
  function AppliedAll(s: ServerState, ds: seq<Delivery>): (s': ServerState)
    requires MirrorOk(s.mirror)
    ensures MirrorOk(s'.mirror)
  {
    if ds == [] then s
    else Applied(AppliedAll(s, ds[..|ds| - 1]), ds[|ds| - 1].batch, ds[|ds| - 1].at).0
  }

  /** Cursors never go back. */
  predicate CursorsAdvance(s: ServerState, s': ServerState) {
    forall src | src in s.cursors :: src in s'.cursors && s.cursors[src] <= s'.cursors[src]
  }

  /** One batch, accepted or not: no mirrored row goes back, loses a reference or disappears, no
    cursor goes back, and nothing of other endpoint databases changes. */
  lemma BatchAdvances(s: ServerState, b: Batch, t: int)
    requires MirrorOk(s.mirror)
    ensures
      var s' := Applied(s, b, t).0;
      && Advances(s.mirror, s'.mirror) && CursorsAdvance(s, s') && OthersSame(s.mirror, s'.mirror, SourceOf(b))
      && forall src | src != SourceOf(b) :: (src in s.cursors <==> src in s'.cursors) && CursorOf(s', src) == CursorOf(s, src)
  {
    if Accepts(b) {
      UpsertAllAdvances(s.mirror, SourceOf(b), b.rows);
      UpsertAllKeepsOthers(s.mirror, SourceOf(b), b.rows);
    }
  }

  lemma {:induction false} AppliedAllAdvances(s: ServerState, ds: seq<Delivery>)
    requires MirrorOk(s.mirror)
    ensures Advances(s.mirror, AppliedAll(s, ds).mirror) && CursorsAdvance(s, AppliedAll(s, ds))
    decreases |ds|
  {
    if ds != [] {
      var n := |ds| - 1;
      var s1 := AppliedAll(s, ds[..n]);
      AppliedAllAdvances(s, ds[..n]);
      BatchAdvances(s1, ds[n].batch, ds[n].at);
      AdvancesTransitive(s.mirror, s1.mirror, AppliedAll(s, ds).mirror);
    }
  }

  // ---------------------------------------------------------------------------------------------
  // Order does not matter

  /** v is a version of row k: the mirrored one or one in the rows. */
  predicate IsVersion(m: Mirror, src: Source, rows: seq<Row>, k: MirrorKey, v: Data)
    requires RowsOk(rows)
  {
    (k in m && v == m[k]) || (exists i | 0 <= i < |rows| :: KeyOf(src, rows[i]) == k && v == StoredData(rows[i]))
  }

  ghost predicate HasVersion(m: Mirror, src: Source, rows: seq<Row>, k: MirrorKey)
    requires RowsOk(rows)
  {
    exists v: Data :: IsVersion(m, src, rows, k, v)
  }

  /** The version has column c and a revision, an integer. */
  predicate Shaped(v: Data, c: Column) {
    c in v && Rev in v && v[Rev].Integer?
  }

  ghost predicate AllShaped(m: Mirror, src: Source, rows: seq<Row>, k: MirrorKey, c: Column)
    requires RowsOk(rows)
  {
    forall v: Data | IsVersion(m, src, rows, k, v) :: Shaped(v, c)
  }

  /** Same revision, same value of column c. */
  predicate Agree(d: Data, v: Data, c: Column) {
    Shaped(d, c) && Shaped(v, c) && d[Rev] == v[Rev] && d[c] == v[c]
  }

  predicate NotNewer(v: Data, d: Data) {
    Rev in v && Rev in d && v[Rev].Integer? && d[Rev].Integer? && v[Rev].i <= d[Rev].i
  }

  /** d agrees with a version of row k that no other version is newer than. */
  ghost predicate IsNewest(m: Mirror, src: Source, rows: seq<Row>, k: MirrorKey, c: Column, d: Data)
    requires RowsOk(rows)
  {
    && (exists v: Data :: IsVersion(m, src, rows, k, v) && Agree(d, v, c))
    && (forall v: Data | IsVersion(m, src, rows, k, v) :: NotNewer(v, d))
  }

  /** What the mirror holds of row k once the rows were applied. */
  ghost predicate Settled(m: Mirror, src: Source, rows: seq<Row>, k: MirrorKey, c: Column, m': Mirror)
    requires RowsOk(rows)
  {
    if k in m' then IsNewest(m, src, rows, k, c, m'[k]) else !HasVersion(m, src, rows, k)
  }

  lemma VersionSnoc(m: Mirror, src: Source, pre: seq<Row>, r: Row, k: MirrorKey)
    requires RowsOk(pre) && RowOk(r) && RowsOk(pre + [r])
    ensures forall v: Data ::
      IsVersion(m, src, pre + [r], k, v) <==> IsVersion(m, src, pre, k, v) || (KeyOf(src, r) == k && v == StoredData(r))
  {
    var rows := pre + [r];
    forall v: Data
      ensures IsVersion(m, src, rows, k, v) <==> IsVersion(m, src, pre, k, v) || (KeyOf(src, r) == k && v == StoredData(r))
    {
      assert rows[|pre|] == r;
      assert forall i | 0 <= i < |pre| :: rows[i] == pre[i];
    }
  }

  /** x agrees with one of the versions and is not older than any of them. */
  lemma BecomesNewest(m: Mirror, src: Source, pre: seq<Row>, r: Row, k: MirrorKey, c: Column, x: Data, w: Data)
    requires RowsOk(pre) && RowOk(r) && RowsOk(pre + [r]) && KeyOf(src, r) == k
    requires Agree(x, w, c) && (w == StoredData(r) || IsVersion(m, src, pre, k, w))
    requires NotNewer(StoredData(r), x) && forall v: Data | IsVersion(m, src, pre, k, v) :: NotNewer(v, x)
    ensures IsNewest(m, src, pre + [r], k, c, x)
  {
    VersionSnoc(m, src, pre, r, k);
    assert IsVersion(m, src, pre + [r], k, w);
  }

  /** What the row r makes of the mirrored version of its key. */
  function Upserted(was: Data, r: Row): Data
    requires Rev in was && RowOk(r)
  {
    if Greater(StoredData(r)[Rev], was[Rev]) then Merge(r.table, was, StoredData(r)) else was
  }

  predicate IsPlain(t: Table, c: Column) {
    c != KeyColumn(t) && !IsReference(c)
  }

  lemma MergedPlain(t: Table, was: Data, now: Data, c: Column)
    requires IsPlain(t, c) && Shaped(now, c)
    ensures Agree(Merge(t, was, now), now, c)
  {
    assert IsPlain(t, Rev);
  }

  lemma UpsertedSettles(m: Mirror, src: Source, pre: seq<Row>, r: Row, k: MirrorKey, c: Column, was: Data)
    requires RowsOk(pre) && RowOk(r) && RowsOk(pre + [r]) && KeyOf(src, r) == k && IsPlain(r.table, c)
    requires Shaped(StoredData(r), c) && IsNewest(m, src, pre, k, c, was)
    ensures Rev in was && IsNewest(m, src, pre + [r], k, c, Upserted(was, r))
  {
    var v: Data :| IsVersion(m, src, pre, k, v) && Agree(was, v, c);
    if Greater(StoredData(r)[Rev], was[Rev]) {
      MergedPlain(r.table, was, StoredData(r), c);
      BecomesNewest(m, src, pre, r, k, c, Upserted(was, r), StoredData(r));
    } else {
      BecomesNewest(m, src, pre, r, k, c, was, v);
    }
  }

  lemma InsertedSettles(m: Mirror, src: Source, pre: seq<Row>, r: Row, k: MirrorKey, c: Column)
    requires RowsOk(pre) && RowOk(r) && RowsOk(pre + [r]) && KeyOf(src, r) == k
    requires Shaped(StoredData(r), c) && !HasVersion(m, src, pre, k)
    ensures IsNewest(m, src, pre + [r], k, c, StoredData(r))
  {
    BecomesNewest(m, src, pre, r, k, c, StoredData(r), StoredData(r));
  }

  lemma OtherRowSettles(m: Mirror, m1: Mirror, m2: Mirror, src: Source, pre: seq<Row>, r: Row, k: MirrorKey, c: Column)
    requires RowsOk(pre) && RowOk(r) && RowsOk(pre + [r]) && KeyOf(src, r) != k
    requires Settled(m, src, pre, k, c, m1) && (k in m1 <==> k in m2) && (k in m1 ==> m2[k] == m1[k])
    ensures Settled(m, src, pre + [r], k, c, m2)
  {
    VersionSnoc(m, src, pre, r, k);
  }

  lemma UpsertAtKey(m1: Mirror, src: Source, r: Row)
    requires MirrorOk(m1) && RowOk(r)
    ensures
      var k := KeyOf(src, r);
      k in Upsert(m1, src, r) && Upsert(m1, src, r)[k] == if k in m1 then Upserted(m1[k], r) else StoredData(r)
  {
  }

  /** One more row makes the newest version of its key. */
  lemma UpsertSettles(m: Mirror, m1: Mirror, src: Source, pre: seq<Row>, r: Row, k: MirrorKey, c: Column)
    requires MirrorOk(m1) && RowsOk(pre) && RowOk(r) && RowsOk(pre + [r]) && IsPlain(k.table, c)
    requires KeyOf(src, r) == k ==> Shaped(StoredData(r), c)
    requires Settled(m, src, pre, k, c, m1)
    ensures Settled(m, src, pre + [r], k, c, Upsert(m1, src, r))
  {
    if KeyOf(src, r) != k {
      OtherRowSettles(m, m1, Upsert(m1, src, r), src, pre, r, k, c);
    } else {
      UpsertAtKey(m1, src, r);
      if k in m1 {
        UpsertedSettles(m, src, pre, r, k, c, m1[k]);
      } else {
        InsertedSettles(m, src, pre, r, k, c);
      }
    }
  }

  lemma {:induction false} UpsertAllSettles(m: Mirror, src: Source, rows: seq<Row>, k: MirrorKey, c: Column)
    requires MirrorOk(m) && RowsOk(rows) && IsPlain(k.table, c) && AllShaped(m, src, rows, k, c)
    ensures Settled(m, src, rows, k, c, UpsertAll(m, src, rows))
    decreases |rows|
  {
    if rows == [] {
      if k in m {
        assert IsVersion(m, src, rows, k, m[k]) && Agree(m[k], m[k], c);
      }
    } else {
      var n := |rows| - 1;
      var pre, r := rows[..n], rows[n];
      assert pre + [r] == rows;
      VersionSnoc(m, src, pre, r, k);
      UpsertAllSettles(m, src, pre, k, c);
      UpsertSettles(m, UpsertAll(m, src, pre), src, pre, r, k, c);
    }
  }

  /** Versions of row k with the same revision have the same value in column c. */
  ghost predicate Consistent(m: Mirror, src: Source, rows: seq<Row>, k: MirrorKey, c: Column)
    requires RowsOk(rows)
  {
    forall v: Data, w: Data | IsVersion(m, src, rows, k, v) && IsVersion(m, src, rows, k, w) && NotNewer(v, w) && NotNewer(w, v)
      :: Agree(v, w, c)
  }

  lemma SameVersions(m: Mirror, src: Source, a: seq<Row>, b: seq<Row>, k: MirrorKey)
    requires RowsOk(a) && RowsOk(b) && (forall r :: r in a <==> r in b)
    ensures forall v: Data :: IsVersion(m, src, a, k, v) <==> IsVersion(m, src, b, k, v)
  {
    forall v: Data ensures IsVersion(m, src, a, k, v) <==> IsVersion(m, src, b, k, v) {
      if IsVersion(m, src, a, k, v) && !(k in m && v == m[k]) {
        var i :| 0 <= i < |a| && KeyOf(src, a[i]) == k && v == StoredData(a[i]);
        assert a[i] in b;
      }
      if IsVersion(m, src, b, k, v) && !(k in m && v == m[k]) {
        var i :| 0 <= i < |b| && KeyOf(src, b[i]) == k && v == StoredData(b[i]);
        assert b[i] in a;
      }
    }
  }

  lemma NewestAgree(m: Mirror, src: Source, rows: seq<Row>, k: MirrorKey, c: Column, d: Data, e: Data)
    requires RowsOk(rows) && Consistent(m, src, rows, k, c) && IsNewest(m, src, rows, k, c, d) && IsNewest(m, src, rows, k, c, e)
    ensures Agree(d, e, c)
  {
    var v: Data :| IsVersion(m, src, rows, k, v) && Agree(d, v, c);
    var w: Data :| IsVersion(m, src, rows, k, w) && Agree(e, w, c);
    assert NotNewer(v, e) && NotNewer(w, d);
    assert Agree(v, w, c);
  }

  lemma RowOrderDoesNotMatter(m: Mirror, src: Source, a: seq<Row>, b: seq<Row>, k: MirrorKey, c: Column)
    requires MirrorOk(m) && RowsOk(a) && RowsOk(b) && IsPlain(k.table, c)
    requires AllShaped(m, src, a, k, c) && Consistent(m, src, a, k, c)
    requires forall r :: r in a <==> r in b
    ensures SameColumn(UpsertAll(m, src, a), UpsertAll(m, src, b), k, c)
  {
    SameVersions(m, src, a, b, k);
    UpsertAllSettles(m, src, a, k, c);
    UpsertAllSettles(m, src, b, k, c);
    SettledAlike(m, src, a, b, k, c, UpsertAll(m, src, a), UpsertAll(m, src, b));
  }

  /** Both mirrors hold row k with the same revision and the same value of column c, or neither holds it. */
  predicate SameColumn(x: Mirror, y: Mirror, k: MirrorKey, c: Column) {
    (k in x <==> k in y) && (k in x ==> Agree(x[k], y[k], c))
  }

  lemma SettledAlike(m: Mirror, src: Source, a: seq<Row>, b: seq<Row>, k: MirrorKey, c: Column, x: Mirror, y: Mirror)
    requires RowsOk(a) && RowsOk(b) && Consistent(m, src, a, k, c)
    requires forall v: Data :: IsVersion(m, src, a, k, v) <==> IsVersion(m, src, b, k, v)
    requires Settled(m, src, a, k, c, x) && Settled(m, src, b, k, c, y)
    ensures SameColumn(x, y, k, c)
  {
    if k in x && k in y {
      assert IsNewest(m, src, a, k, c, y[k]);
      NewestAgree(m, src, a, k, c, x[k], y[k]);
    }
  }

  // ---------------------------------------------------------------------------------------------
  // Batches of many sources

  /** The rows that one source delivered in batches the server accepted. */
  function RowsFrom(ds: seq<Delivery>, src: Source): (rows: seq<Row>)
    ensures RowsOk(rows)
  {
    if ds == [] then []
    else
      var b := ds[|ds| - 1].batch;
      RowsFrom(ds[..|ds| - 1], src) + if Accepts(b) && SourceOf(b) == src then b.rows else []
  }

  predicate SameAt(m: Mirror, m': Mirror, k: MirrorKey) {
    (k in m <==> k in m') && (k in m ==> m'[k] == m[k])
  }

  lemma {:induction false} UpsertAllSameAt(m: Mirror, m': Mirror, src: Source, rows: seq<Row>, k: MirrorKey)
    requires MirrorOk(m) && MirrorOk(m') && RowsOk(rows) && SameAt(m, m', k)
    ensures SameAt(UpsertAll(m, src, rows), UpsertAll(m', src, rows), k)
    decreases |rows|
  {
    if rows != [] {
      UpsertAllSameAt(m, m', src, rows[..|rows| - 1], k);
    }
  }

  lemma {:induction false} UpsertAllAppend(m: Mirror, src: Source, a: seq<Row>, b: seq<Row>)
    requires MirrorOk(m) && RowsOk(a) && RowsOk(b) && RowsOk(a + b)
    ensures UpsertAll(m, src, a + b) == UpsertAll(UpsertAll(m, src, a), src, b)
    decreases |b|
  {
    if b == [] {
      assert a + b == a;
    } else {
      var n := |b| - 1;
      UpsertAllAppend(m, src, a, b[..n]);
      UpsertSnoc(m, src, a + b[..n], b[n]);
      assert a + b[..n] + [b[n]] == a + b;
    }
  }

  lemma UpsertSnoc(m: Mirror, src: Source, rows: seq<Row>, r: Row)
    requires MirrorOk(m) && RowsOk(rows) && RowOk(r) && RowsOk(rows + [r])
    ensures UpsertAll(m, src, rows + [r]) == Upsert(UpsertAll(m, src, rows), src, r)
  {
    assert (rows + [r])[..|rows|] == rows;
  }

  /** For the rows of one endpoint database it is as if only its own batches had been delivered. */
  lemma {:induction false} OwnRowsCount(s: ServerState, ds: seq<Delivery>, k: MirrorKey)
    requires MirrorOk(s.mirror)
    ensures
      var src := Source(k.host, k.instance);
      SameAt(AppliedAll(s, ds).mirror, UpsertAll(s.mirror, src, RowsFrom(ds, src)), k)
    decreases |ds|
  {
    if ds != [] {
      var src := Source(k.host, k.instance);
      var init := ds[..|ds| - 1];
      OwnRowsCount(s, init, k);
      OwnRowsNext(s, AppliedAll(s, init), RowsFrom(init, src), ds[|ds| - 1], k);
    }
  }

  lemma OwnRowsNext(s: ServerState, s1: ServerState, rows: seq<Row>, d: Delivery, k: MirrorKey)
    requires MirrorOk(s.mirror) && MirrorOk(s1.mirror) && RowsOk(rows)
    requires SameAt(s1.mirror, UpsertAll(s.mirror, Source(k.host, k.instance), rows), k)
    ensures
      var src := Source(k.host, k.instance);
      var rows' := rows + if Accepts(d.batch) && SourceOf(d.batch) == src then d.batch.rows else [];
      RowsOk(rows') && SameAt(Applied(s1, d.batch, d.at).0.mirror, UpsertAll(s.mirror, src, rows'), k)
  {
    var src := Source(k.host, k.instance);
    if Accepts(d.batch) && SourceOf(d.batch) == src {
      UpsertAllSameAt(s1.mirror, UpsertAll(s.mirror, src, rows), src, d.batch.rows, k);
      UpsertAllAppend(s.mirror, src, rows, d.batch.rows);
    } else {
      assert rows + [] == rows;
      BatchAdvances(s1, d.batch, d.at);
    }
  }

  /** Every column of a mirrored row but the key and the references depends only on the set of rows its
    endpoint database delivered: not on how they were batched, in which order or how often the batches
    came, when, or what other endpoint databases delivered in between. */
  lemma OrderDoesNotMatter(s: ServerState, a: seq<Delivery>, b: seq<Delivery>, k: MirrorKey, c: Column)
    requires MirrorOk(s.mirror) && IsPlain(k.table, c)
    requires
      var src := Source(k.host, k.instance);
      && AllShaped(s.mirror, src, RowsFrom(a, src), k, c) && Consistent(s.mirror, src, RowsFrom(a, src), k, c)
      && forall r :: r in RowsFrom(a, src) <==> r in RowsFrom(b, src)
    ensures SameColumn(AppliedAll(s, a).mirror, AppliedAll(s, b).mirror, k, c)
  {
    var src := Source(k.host, k.instance);
    OwnRowsCount(s, a, k);
    OwnRowsCount(s, b, k);
    RowOrderDoesNotMatter(s.mirror, src, RowsFrom(a, src), RowsFrom(b, src), k, c);
  }
}
