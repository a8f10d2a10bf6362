/** Replication as a step system: endpoint writes and prunes, reads of batches from any cursor the
  server ever reported, and deliveries of any batch, any number of times, in any order. */
module Protocol {
  import opened Wire
  import opened Endpoint
  import opened Changes
  import opened Server
  import Laws = ServerLaws

  /** A batch in flight. `from` is the cursor it was read above. */
  datatype Msg = Msg(from: int, rows: seq<Row>)

  /** `sent` keeps every batch ever read: each may be delivered, again and late, or never. */
  datatype System = System(db: Db, server: ServerState, sent: seq<Msg>)

  function MirrorKeyOf(src: Source, k: RowKey): MirrorKey {
    MirrorKey(src.host, src.instance, k.table, k.key)
  }

  /** An endpoint row as far as replication cares: its own key, a revision and values SQLite keeps. */
  predicate Proper(k: RowKey, d: Data) {
    && KeyColumn(k.table) in d && d[KeyColumn(k.table)] == k.key
    && (k.key.Integer? || k.key.Str?)
    && HasRev(d)
    && forall c | c in d :: !d[c].Bool?
  }

  predicate AllProper(db: Db) {
    forall k | k in db.rows :: Proper(k, db.rows[k])
  }

  predicate SameOrCovered(m: Data, d: Data, c: Column)
    requires c in d
  {
    c in m && (m[c] == d[c] || (IsReference(c) && d[c] == Null))
  }

  /** The mirrored row has the endpoint row's revision, its plain columns, and its references that
    are not NULL. */
  predicate Mirrors(m: Data, d: Data) {
    && HasRev(m) && HasRev(d) && RevOf(m) == RevOf(d)
    && forall c | c in d :: SameOrCovered(m, d, c)
  }

  // ---------------------------------------------------------------------------------------------
  // The invariant

  /** The mirrored row is the endpoint row or an older one. */
  predicate PastRow(db: Db, k: RowKey, m: Data) {
    && HasRev(m) && RevOf(m) <= db.counter
    && KeyColumn(k.table) in m && m[KeyColumn(k.table)] == k.key
    && (k in db.rows && HasRev(db.rows[k]) ==>
          RevOf(m) <= RevOf(db.rows[k]) && (RevOf(m) == RevOf(db.rows[k]) ==> Mirrors(m, db.rows[k])))
  }

  predicate MirrorPast(db: Db, mirror: Mirror, src: Source) {
    && MirrorOk(mirror)
    && forall mk | mk in mirror && Source(mk.host, mk.instance) == src :: PastRow(db, RowKey(mk.table, mk.key), mirror[mk])
  }

  function KeyIn(r: Row): RowKey
    requires KeyColumn(r.table) in r.data
  {
    RowKey(r.table, r.data[KeyColumn(r.table)])
  }

  /** The row in flight is the endpoint row or an older one. */
  predicate PastMsgRow(db: Db, r: Row) {
    && KeyColumn(r.table) in r.data && Proper(KeyIn(r), r.data)
    && r.rev == RevOf(r.data) && 1 <= r.rev <= db.counter
    && (KeyIn(r) in db.rows && HasRev(db.rows[KeyIn(r)]) ==>
          r.rev <= RevOf(db.rows[KeyIn(r)]) && (r.rev == RevOf(db.rows[KeyIn(r)]) ==> r.data == db.rows[KeyIn(r)]))
  }

  predicate MsgRowsPast(db: Db, rows: seq<Row>) {
    forall i | 0 <= i < |rows| :: PastMsgRow(db, rows[i])
  }

  /** Of the endpoint rows with revisions the batch spans, none is missing from it. */
  predicate Complete(db: Db, m: Msg) {
    forall k | k in db.rows && HasRev(db.rows[k]) && m.from < RevOf(db.rows[k]) <= MaxRev(m.rows) :: RowAt(k, db.rows[k]) in m.rows
  }

  predicate MsgOk(db: Db, cursor: int, m: Msg) {
    m.from <= cursor && MaxRev(m.rows) <= db.counter && MsgRowsPast(db, m.rows) && Complete(db, m)
  }

  /** Each endpoint row with a revision up to the cursor is mirrored at exactly that revision. */
  predicate Covered(db: Db, mirror: Mirror, src: Source, cursor: int) {
    forall k | k in db.rows && HasRev(db.rows[k]) && RevOf(db.rows[k]) <= cursor ::
      MirrorKeyOf(src, k) in mirror && Mirrors(mirror[MirrorKeyOf(src, k)], db.rows[k])
  }

  /** What holds of an endpoint database and the server at any time. */
  predicate InSync(db: Db, server: ServerState, src: Source) {
    && Revisioned(db) && AllProper(db)
    && MirrorPast(db, server.mirror, src)
    && 0 <= CursorOf(server, src) <= db.counter
    && Covered(db, server.mirror, src, CursorOf(server, src))
  }

  predicate SystemInv(s: System, src: Source) {
    InSync(s.db, s.server, src) && forall i | 0 <= i < |s.sent| :: MsgOk(s.db, CursorOf(s.server, src), s.sent[i])
  }

  // ---------------------------------------------------------------------------------------------
  // Steps

  function BatchOf(src: Source, name: string, rows: seq<Row>): Batch {
    Batch(Host(src.host, name), src.instance, SCHEMA_VERSION, rows)
  }

  datatype Step =
    | Write(db: Db)
    | Read(msg: Msg)
    | Deliver(i: nat, name: string, now: int)
    | Other(b: Batch, now: int)

  ghost predicate Enabled(s: System, src: Source, step: Step)
    requires Revisioned(s.db)
  {
    match step
    case Write(db) => Evolves(s.db, db) && AllProper(db)
    case Read(msg) => 0 <= msg.from <= CursorOf(s.server, src) && IsBatch(s.db, msg.from, MAX_ROWS, msg.rows)
    case Deliver(i, _, _) => i < |s.sent|
    case Other(b, _) => SourceOf(b) != src || !Accepts(b)
  }

  function Next(s: System, src: Source, step: Step): System
    requires MirrorOk(s.server.mirror) && (step.Deliver? ==> step.i < |s.sent|)
  {
    match step
    case Write(db) => s.(db := db)
    case Read(msg) => s.(sent := s.sent + [msg])
    case Deliver(i, name, now) => s.(server := Applied(s.server, BatchOf(src, name, s.sent[i].rows), now).0)
    case Other(b, now) => s.(server := Applied(s.server, b, now).0)
  }

  // ---------------------------------------------------------------------------------------------
  // Every step keeps the invariant

  lemma WriteKeeps(s: System, src: Source, db: Db)
    requires SystemInv(s, src) && Evolves(s.db, db) && AllProper(db)
    ensures SystemInv(s.(db := db), src)
  {
    forall mk | mk in s.server.mirror && Source(mk.host, mk.instance) == src
      ensures PastRow(db, RowKey(mk.table, mk.key), s.server.mirror[mk])
    {
      assert PastRow(s.db, RowKey(mk.table, mk.key), s.server.mirror[mk]);
    }
    forall i | 0 <= i < |s.sent| ensures MsgOk(db, CursorOf(s.server, src), s.sent[i]) {
      assert MsgOk(s.db, CursorOf(s.server, src), s.sent[i]);
      forall j | 0 <= j < |s.sent[i].rows| ensures PastMsgRow(db, s.sent[i].rows[j]) {
        assert PastMsgRow(s.db, s.sent[i].rows[j]);
      }
    }
  }

  lemma {:induction false} MaxRevOfBatch(rows: seq<Row>)
    requires ByRev(rows) && forall i | 0 <= i < |rows| :: rows[i].rev >= 1
    ensures MaxRev(rows) == if rows == [] then 0 else rows[|rows| - 1].rev
    decreases |rows|
  {
    if rows != [] {
      MaxRevOfBatch(rows[..|rows| - 1]);
    }
  }

  lemma ReadRow(db: Db, cursor: int, r: Row)
    requires Revisioned(db) && AllProper(db) && Reads(db, cursor, r)
    ensures PastMsgRow(db, r)
  {
    var k :| k in db.rows && RowAt(k, db.rows[k]) == r;
    assert Proper(k, db.rows[k]);
    assert KeyIn(r) == k;
  }

  lemma BatchIsOk(db: Db, cursor: int, from: int, limit: nat, rows: seq<Row>)
    requires Revisioned(db) && AllProper(db) && from <= cursor && IsBatch(db, from, limit, rows)
    ensures MsgOk(db, cursor, Msg(from, rows))
    ensures MaxRev(rows) == if rows == [] then 0 else rows[|rows| - 1].rev
  {
    forall i | 0 <= i < |rows| ensures PastMsgRow(db, rows[i]) {
      assert Reads(db, from, rows[i]);
      ReadRow(db, from, rows[i]);
    }
    assert forall i | 0 <= i < |rows| :: PastMsgRow(db, rows[i]) && rows[i].rev >= 1;
    MaxRevOfBatch(rows);
    assert rows != [] ==> PastMsgRow(db, rows[|rows| - 1]);
  }

  lemma PastRowsOk(db: Db, rows: seq<Row>)
    requires MsgRowsPast(db, rows)
    ensures RowsOk(rows)
  {
    forall i | 0 <= i < |rows| ensures RowOk(rows[i]) {
      assert PastMsgRow(db, rows[i]);
    }
  }

  lemma ProperStored(r: Row)
    requires KeyColumn(r.table) in r.data && Proper(KeyIn(r), r.data)
    ensures StoredData(r) == r.data && Normal(r.data[KeyColumn(r.table)]) == KeyIn(r).key
  {
  }

  /** Merging the current endpoint row, or an older one, leaves the mirror in the past. */
  lemma MergePast(db: Db, k: RowKey, m: Data, d: Data)
    requires PastRow(db, k, m) && Proper(k, d) && RevOf(m) < RevOf(d) <= db.counter
    requires k in db.rows && HasRev(db.rows[k]) ==> RevOf(d) <= RevOf(db.rows[k]) && (RevOf(d) == RevOf(db.rows[k]) ==> d == db.rows[k])
    ensures PastRow(db, k, Merge(k.table, m, d))
  {
    var x := Merge(k.table, m, d);
    assert KeyColumn(k.table) != Rev && !IsReference(KeyColumn(k.table));
    assert HasRev(x) && RevOf(x) == RevOf(d);
    assert forall c | c in d :: SameOrCovered(x, d, c);
  }

  lemma UpsertPast(db: Db, mirror: Mirror, src: Source, r: Row)
    requires MirrorPast(db, mirror, src) && PastMsgRow(db, r) && RowOk(r)
    ensures MirrorPast(db, Upsert(mirror, src, r), src)
  {
    ProperStored(r);
    var k := KeyOf(src, r);
    var m' := Upsert(mirror, src, r);
    forall mk | mk in m' && Source(mk.host, mk.instance) == src ensures PastRow(db, RowKey(mk.table, mk.key), m'[mk]) {
      if mk in mirror {
        assert PastRow(db, RowKey(mk.table, mk.key), mirror[mk]);
        if mk == k && Greater(r.data[Rev], mirror[mk][Rev]) {
          MergePast(db, KeyIn(r), mirror[mk], r.data);
        }
      } else {
        assert forall c | c in r.data :: SameOrCovered(r.data, r.data, c);
      }
    }
  }

  lemma {:induction false} UpsertAllPast(db: Db, mirror: Mirror, src: Source, rows: seq<Row>)
    requires MirrorPast(db, mirror, src) && MsgRowsPast(db, rows) && RowsOk(rows)
    ensures MirrorPast(db, UpsertAll(mirror, src, rows), src)
    decreases |rows|
  {
    if rows != [] {
      var n := |rows| - 1;
      UpsertAllPast(db, mirror, src, rows[..n]);
      assert PastMsgRow(db, rows[n]);
      UpsertPast(db, UpsertAll(mirror, src, rows[..n]), src, rows[n]);
    }
  }

  /** A past row that is not older than the endpoint row mirrors it. */
  lemma NotOlderMirrors(db: Db, mirror: Mirror, src: Source, k: RowKey)
    requires MirrorPast(db, mirror, src) && k in db.rows && HasRev(db.rows[k])
    requires MirrorKeyOf(src, k) in mirror && !Greater(db.rows[k][Rev], mirror[MirrorKeyOf(src, k)][Rev])
    ensures Mirrors(mirror[MirrorKeyOf(src, k)], db.rows[k])
  {
    assert PastRow(db, k, mirror[MirrorKeyOf(src, k)]);
  }

  /** A row that the message carries is mirrored, at its revision or a later one, once it is stored. */
  lemma SentIsAbsorbed(db: Db, mirror: Mirror, src: Source, cursor: int, m: Msg, k: RowKey)
    requires Revisioned(db) && AllProper(db) && MirrorPast(db, mirror, src) && MsgOk(db, cursor, m) && RowsOk(m.rows)
    requires k in db.rows && HasRev(db.rows[k]) && cursor < RevOf(db.rows[k]) <= Max(cursor, MaxRev(m.rows))
    ensures
      var m' := UpsertAll(mirror, src, m.rows);
      MirrorKeyOf(src, k) in m' && !Greater(db.rows[k][Rev], m'[MirrorKeyOf(src, k)][Rev])
  {
    var r := RowAt(k, db.rows[k]);
    var i: nat :| i < |m.rows| && m.rows[i] == r;
    assert Proper(k, db.rows[k]);
    ProperStored(r);
    Laws.UpsertAllAbsorbs(mirror, src, m.rows, i);
  }

  /** Stored rows cover everything up to the highest revision they span. */
  lemma StoredCovers(db: Db, mirror: Mirror, src: Source, cursor: int, m: Msg)
    requires Revisioned(db) && AllProper(db) && MirrorPast(db, mirror, src) && Covered(db, mirror, src, cursor)
    requires MsgOk(db, cursor, m) && RowsOk(m.rows)
    ensures Covered(db, UpsertAll(mirror, src, m.rows), src, Max(cursor, MaxRev(m.rows)))
    ensures MirrorPast(db, UpsertAll(mirror, src, m.rows), src)
  {
    var m' := UpsertAll(mirror, src, m.rows);
    UpsertAllPast(db, mirror, src, m.rows);
    Laws.UpsertAllAdvances(mirror, src, m.rows);
    forall k | k in db.rows && HasRev(db.rows[k]) && RevOf(db.rows[k]) <= Max(cursor, MaxRev(m.rows))
      ensures MirrorKeyOf(src, k) in m' && Mirrors(m'[MirrorKeyOf(src, k)], db.rows[k])
    {
      var mk := MirrorKeyOf(src, k);
      if RevOf(db.rows[k]) <= cursor {
        assert mk in mirror && Mirrors(mirror[mk], db.rows[k]);
      } else {
        SentIsAbsorbed(db, mirror, src, cursor, m, k);
      }
      NotOlderMirrors(db, m', src, k);
    }
  }

  lemma DeliverKeepsSync(db: Db, server: ServerState, src: Source, m: Msg, name: string, now: int)
    requires InSync(db, server, src) && MsgOk(db, CursorOf(server, src), m)
    ensures InSync(db, Applied(server, BatchOf(src, name, m.rows), now).0, src)
    ensures CursorOf(Applied(server, BatchOf(src, name, m.rows), now).0, src) >= CursorOf(server, src)
  {
    PastRowsOk(db, m.rows);
    if Accepts(BatchOf(src, name, m.rows)) {
      StoredCovers(db, server.mirror, src, CursorOf(server, src), m);
    }
  }

  lemma OtherKeepsSync(db: Db, server: ServerState, src: Source, b: Batch, now: int)
    requires InSync(db, server, src) && (SourceOf(b) != src || !Accepts(b))
    ensures InSync(db, Applied(server, b, now).0, src) && CursorOf(Applied(server, b, now).0, src) == CursorOf(server, src)
  {
    var server' := Applied(server, b, now).0;
    if Accepts(b) {
      Laws.BatchAdvances(server, b, now);
      forall mk | mk in server'.mirror && Source(mk.host, mk.instance) == src
        ensures PastRow(db, RowKey(mk.table, mk.key), server'.mirror[mk])
      {
        assert mk in server.mirror && server'.mirror[mk] == server.mirror[mk];
      }
      forall k | k in db.rows && RevOf(db.rows[k]) <= CursorOf(server, src)
        ensures MirrorKeyOf(src, k) in server'.mirror && Mirrors(server'.mirror[MirrorKeyOf(src, k)], db.rows[k])
      {
        assert MirrorKeyOf(src, k) in server.mirror;
      }
    }
  }

  /** A message stays in order while the cursor only grows. */
  lemma MsgsStayOk(db: Db, cursor: int, cursor': int, sent: seq<Msg>)
    requires cursor <= cursor' && forall i | 0 <= i < |sent| :: MsgOk(db, cursor, sent[i])
    ensures forall i | 0 <= i < |sent| :: MsgOk(db, cursor', sent[i])
  {
    forall i | 0 <= i < |sent| ensures MsgOk(db, cursor', sent[i]) {
      assert MsgOk(db, cursor, sent[i]);
    }
  }

  lemma StepKeeps(s: System, src: Source, step: Step)
    requires SystemInv(s, src) && Enabled(s, src, step)
    ensures SystemInv(Next(s, src, step), src)
  {
    var s' := Next(s, src, step);
    match step {
      case Write(db) => WriteKeeps(s, src, db);
      case Read(msg) => BatchIsOk(s.db, CursorOf(s.server, src), msg.from, MAX_ROWS, msg.rows);
      case Deliver(i, name, now) =>
        DeliverKeepsSync(s.db, s.server, src, s.sent[i], name, now);
        MsgsStayOk(s.db, CursorOf(s.server, src), CursorOf(s'.server, src), s.sent);
      case Other(b, now) =>
        OtherKeepsSync(s.db, s.server, src, b, now);
    }
  }

  // ---------------------------------------------------------------------------------------------
  // Reachable states

  /** A fresh or migrated endpoint database that the server has never heard of. */
  ghost predicate Initial(s: System, src: Source) {
    && Revisioned(s.db) && AllProper(s.db)
    && MirrorOk(s.server.mirror) && src !in s.server.cursors
    && (forall mk | mk in s.server.mirror :: Source(mk.host, mk.instance) != src)
    && s.sent == []
  }

  /** The steps lead from state s to state s'. */
  ghost predicate Leads(s: System, src: Source, steps: seq<Step>, s': System)
    decreases |steps|
  {
    if steps == [] then s' == s
    else
      && Revisioned(s.db) && MirrorOk(s.server.mirror) && Enabled(s, src, steps[0])
      && Leads(Next(s, src, steps[0]), src, steps[1..], s')
  }

  lemma {:induction false} InvAlways(s: System, src: Source, steps: seq<Step>, s': System)
    requires SystemInv(s, src) && Leads(s, src, steps, s')
    ensures SystemInv(s', src)
    decreases |steps|
  {
    if steps != [] {
      StepKeeps(s, src, steps[0]);
      InvAlways(Next(s, src, steps[0]), src, steps[1..], s');
    }
  }

  /** In every reachable state each endpoint row with a revision up to the server's cursor is
    mirrored at exactly that revision, equal on every column except that a reference the endpoint
    lost to NULL may still be there. */
  lemma CoverageAlways(s: System, src: Source, steps: seq<Step>, s': System, k: RowKey)
    requires Initial(s, src) && Leads(s, src, steps, s')
    requires k in s'.db.rows && HasRev(s'.db.rows[k]) && RevOf(s'.db.rows[k]) <= CursorOf(s'.server, src)
    ensures MirrorKeyOf(src, k) in s'.server.mirror && Mirrors(s'.server.mirror[MirrorKeyOf(src, k)], s'.db.rows[k])
  {
    assert Covered(s.db, s.server.mirror, src, 0);
    InvAlways(s, src, steps, s');
  }
}
