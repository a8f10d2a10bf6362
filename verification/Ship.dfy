/** The shipper's loop: asks how far the server is, and reads and posts until nothing is left. */
module Ship {
  import opened Wire
  import opened Endpoint
  import opened Changes
  import opened Server
  import opened Protocol
  import opened References
  import opened Pruning

  lemma FitsIsProper(k: RowKey, d: Data)
    requires Fits(k, d)
    ensures Proper(k, d) && k.table in TABLES && ValidRow(RowAt(k, d))
  {
    assert k.key.Integer? || k.key.Str?;
    TablesAreKnown(k.table);
  }

  lemma TablesAreKnown(t: Table)
    ensures t in TABLES <==> KnownTable(t)
  {
    assert TABLES == [Watches, Sessions, Profiles, Runs, RunEnv, Processes, Denials, Orphans];
    match t {
      case Watches => assert TABLES[0] == t;
      case Sessions => assert TABLES[1] == t;
      case Profiles => assert TABLES[2] == t;
      case Runs => assert TABLES[3] == t;
      case RunEnv => assert TABLES[4] == t;
      case Processes => assert TABLES[5] == t;
      case Denials => assert TABLES[6] == t;
      case Orphans => assert TABLES[7] == t;
      case UnknownTable(_) =>
    }
  }

  lemma FittingDatabase(db: Db)
    requires AllFit(db)
    ensures AllProper(db) && OfTables(db)
  {
    forall k | k in db.rows ensures Proper(k, db.rows[k]) && k.table in TABLES {
      FitsIsProper(k, db.rows[k]);
    }
  }

  /** The server never refuses what the shipper reads. */
  lemma BatchIsAccepted(db: Db, cursor: int, rows: seq<Row>, src: Source, name: string)
    requires Revisioned(db) && AllFit(db) && IsBatch(db, cursor, MAX_ROWS, rows) && src.host != "" && src.instance != ""
    ensures Accepts(BatchOf(src, name, rows))
  {
    forall i | 0 <= i < |rows| ensures ValidRow(rows[i]) {
      assert Reads(db, cursor, rows[i]);
      var k :| k in db.rows && RowAt(k, db.rows[k]) == rows[i];
      FitsIsProper(k, db.rows[k]);
    }
  }

  // ---------------------------------------------------------------------------------------------
  // Pruning between syncs

  lemma FitsAfter(k: RowKey, was: Data, now: Data, removed: set<RowKey>, counter: int)
    requires Fits(k, was) && RowAfter(k, was, now, removed, counter)
    ensures Fits(k, now)
  {
    if now != was {
      assert RefOf(k.table, KeyColumn(k.table)).NoReference? && KeyColumn(k.table) != Rev;
      forall c | c in now ensures now[c].Null? || now[c].Integer? || now[c].Str? {
        assert c != Rev ==> ColumnAfter(k, was, now, c, removed);
      }
      assert ColumnAfter(k, was, now, KeyColumn(k.table), removed);
    }
  }

  /** Pruning is a step of the protocol, so coverage and convergence hold across it. */
  lemma PruneIsAStep(s: System, src: Source, b: Db, removed: set<RowKey>, cutoff: int)
    requires Revisioned(s.db) && AllFit(s.db) && Pruned(s.db, b, removed, cutoff)
    ensures AllFit(b) && Enabled(s, src, Write(b))
  {
    PruneEvolves(s.db, b, removed, cutoff);
    forall k | k in b.rows ensures Fits(k, b.rows[k]) {
      FitsAfter(k, s.db.rows[k], b.rows[k], removed, s.db.counter);
    }
    FittingDatabase(b);
  }

  // ---------------------------------------------------------------------------------------------
  // Syncing

  datatype Outcome = Synced(total: nat) | Rejected(total: nat)

  predicate Ready(db: Db, server: ServerState, src: Source) {
    AllFit(db) && InSync(db, server, src) && src.host != "" && src.instance != ""
  }

  /** One batch: what the server says afterwards, and what holds then. */
  lemma BatchStored(db: Db, server: ServerState, src: Source, name: string, rows: seq<Row>, now: int)
    requires Ready(db, server, src) && IsBatch(db, CursorOf(server, src), MAX_ROWS, rows)
    ensures
      var res := Applied(server, BatchOf(src, name, rows), now);
      var was := CursorOf(server, src);
      && res.1 == Accepted(CursorOf(res.0, src))
      && CursorOf(res.0, src) == (if rows == [] then was else rows[|rows| - 1].rev)
      && CursorOf(res.0, src) >= was + |rows|
      && Ready(db, res.0, src)
      && (|rows| < MAX_ROWS ==> forall k | k in db.rows :: RevOf(db.rows[k]) <= CursorOf(res.0, src))
  {
    var was := CursorOf(server, src);
    BatchIsAccepted(db, was, rows, src, name);
    BatchIsOk(db, was, was, MAX_ROWS, rows);
    DeliverKeepsSync(db, server, src, Msg(was, rows), name, now);
    RevsSpread(db, was, rows);
    if |rows| < MAX_ROWS {
      forall k | k in db.rows ensures RevOf(db.rows[k]) <= (if rows == [] then was else rows[|rows| - 1].rev) {
        if RevOf(db.rows[k]) > was {
          var i :| 0 <= i < |rows| && rows[i] == RowAt(k, db.rows[k]);
        }
      }
    }
  }

  lemma {:induction false} RevsSpread(db: Db, cursor: int, rows: seq<Row>)
    requires Issued(db) && ByRev(rows) && forall i | 0 <= i < |rows| :: Reads(db, cursor, rows[i])
    ensures rows != [] ==> rows[|rows| - 1].rev >= cursor + |rows|
    decreases |rows|
  {
    if rows != [] {
      RevsSpread(db, cursor, rows[..|rows| - 1]);
      assert Reads(db, cursor, rows[|rows| - 1]);
    }
  }

  /** However replication went so far, a sync can start. */
  lemma ReachableIsReady(s: System, src: Source, steps: seq<Step>, s': System)
    requires Initial(s, src) && Leads(s, src, steps, s') && AllFit(s'.db) && src.host != "" && src.instance != ""
    ensures Ready(s'.db, s'.server, src)
  {
    assert Covered(s.db, s.server.mirror, src, 0);
    InvAlways(s, src, steps, s');
  }

  /** Everything at the endpoint is mirrored. */
  predicate FullyMirrored(db: Db, server: ServerState, src: Source) {
    forall k | k in db.rows ::
      MirrorKeyOf(src, k) in server.mirror && Mirrors(server.mirror[MirrorKeyOf(src, k)], db.rows[k])
  }

  /** The rows with a revision above `from` and up to `to`. */
  function Between(db: Db, from: int, to: int): set<RowKey> {
    set k | k in db.rows && HasRev(db.rows[k]) && from < RevOf(db.rows[k]) <= to
  }

  function KeysOf(db: Db, rows: seq<Row>): set<RowKey> {
    set k | k in db.rows && HasRev(db.rows[k]) && RowAt(k, db.rows[k]) in rows
  }

  lemma {:induction false} OneKeyEach(db: Db, cursor: int, rows: seq<Row>)
    requires Revisioned(db) && ByRev(rows) && forall i | 0 <= i < |rows| :: Reads(db, cursor, rows[i])
    ensures |KeysOf(db, rows)| == |rows|
    decreases |rows|
  {
    if rows == [] {
      assert KeysOf(db, rows) == {};
    } else {
      var init, last := rows[..|rows| - 1], rows[|rows| - 1];
      OneKeyEach(db, cursor, init);
      assert Reads(db, cursor, last);
      var k :| k in db.rows && RowAt(k, db.rows[k]) == last;
      assert rows == init + [last];
      assert last !in init;
      assert KeysOf(db, rows) == KeysOf(db, init) + {k};
    }
  }

  /** A batch has every row up to its last revision, once. */
  lemma BatchCounts(db: Db, cursor: int, limit: nat, rows: seq<Row>)
    requires Revisioned(db) && IsBatch(db, cursor, limit, rows)
    ensures |rows| == |Between(db, cursor, if rows == [] then cursor else rows[|rows| - 1].rev)|
  {
    OneKeyEach(db, cursor, rows);
    var to := if rows == [] then cursor else rows[|rows| - 1].rev;
    forall k ensures k in KeysOf(db, rows) <==> k in Between(db, cursor, to) {
      if k in KeysOf(db, rows) {
        var i :| 0 <= i < |rows| && rows[i] == RowAt(k, db.rows[k]);
        assert Reads(db, cursor, rows[i]);
      }
    }
    assert KeysOf(db, rows) == Between(db, cursor, to);
  }

  lemma BetweenAdds(db: Db, from: int, mid: int, to: int)
    requires from <= mid <= to
    ensures |Between(db, from, to)| == |Between(db, from, mid)| + |Between(db, mid, to)|
  {
    assert Between(db, from, to) == Between(db, from, mid) + Between(db, mid, to);
  }

  predicate AllUpTo(db: Db, cursor: int) {
    forall k | k in db.rows :: HasRev(db.rows[k]) && RevOf(db.rows[k]) <= cursor
  }

  /** Reads one batch above the cursor and posts it. */
  method Send(e: Database, server: ReportServer, src: Source, name: string, cursor: int, now: int)
    returns (sent: nat, next: int, rejected: bool)
    requires Ready(e.St(), server.St(), src) && OfTables(e.St()) && cursor == CursorOf(server.St(), src)
    modifies server
    ensures !rejected && Ready(e.St(), server.St(), src) && next == CursorOf(server.St(), src)
    ensures sent <= MAX_ROWS && next >= cursor + sent && (sent < MAX_ROWS ==> AllUpTo(e.St(), next))
    ensures sent == |Between(e.St(), cursor, next)|
  {
    var rows := ChangesSince(e, cursor, MAX_ROWS);
    BatchCounts(e.St(), cursor, MAX_ROWS, rows);
    BatchStored(e.St(), server.St(), src, name, rows, now);
    var reply := server.Apply(BatchOf(src, name, rows), now);
    sent, next := |rows|, reply.cursor;
    rejected := |rows| > 0 && reply.cursor < rows[|rows| - 1].rev;
  }

  lemma CursorWithinCounter(db: Db, server: ServerState, src: Source)
    requires Ready(db, server, src)
    ensures CursorOf(server, src) <= db.counter
  {
  }

  lemma AllUpToIsMirrored(db: Db, server: ServerState, src: Source)
    requires Ready(db, server, src) && AllUpTo(db, CursorOf(server, src))
    ensures FullyMirrored(db, server, src)
  {
  }

  /** While the endpoint does not change and no call fails: ends, is never rejected, moves the cursor
    by at least MAX_ROWS with every batch but the last, sends each row that is newer than the first
    cursor once, and leaves the whole endpoint database mirrored. */
  method SyncOnce(e: Database, server: ReportServer, src: Source, name: string, now: int) returns (res: Outcome, ghost batches: nat)
    requires Ready(e.St(), server.St(), src)
    modifies server
    ensures res.Synced? && Ready(e.St(), server.St(), src) && FullyMirrored(e.St(), server.St(), src)
    ensures batches >= 1 && old(CursorOf(server.St(), src)) + (batches - 1) * MAX_ROWS <= CursorOf(server.St(), src)
    ensures AllUpTo(e.St(), CursorOf(server.St(), src))
    ensures res.total == |Between(e.St(), old(CursorOf(server.St(), src)), CursorOf(server.St(), src))|
  {
    FittingDatabase(e.St());
    var cursor := server.Cursor(src);
    var total: nat := 0;
    batches := 0;
    ghost var start := cursor;
    assert Between(e.St(), start, start) == {};
    while true
      invariant Ready(e.St(), server.St(), src) && cursor == CursorOf(server.St(), src)
      invariant start + batches * MAX_ROWS <= cursor
      invariant total == |Between(e.St(), start, cursor)|
      decreases e.counter - cursor
    {
      CursorWithinCounter(e.St(), server.St(), src);
      var sent, next, rejected := Send(e, server, src, name, cursor, now);
      batches := batches + 1;
      BetweenAdds(e.St(), start, cursor, next);
      total := total + sent;
      if rejected {
        return Rejected(total), batches;
      }
      cursor := next;
      if sent < MAX_ROWS {
        AllUpToIsMirrored(e.St(), server.St(), src);
        return Synced(total), batches;
      }
      CursorWithinCounter(e.St(), server.St(), src);
    }
  }
}
