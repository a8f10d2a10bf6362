/** The report server's mirror of endpoint rows, and what one batch does to it. */
module Server {
  import opened Wire

  /** Identifies a mirrored row: the endpoint database, the table and the local key. */
  datatype MirrorKey = MirrorKey(host: string, instance: string, table: Table, key: Val)

  datatype Source = Source(host: string, instance: string)

  datatype HostRow = HostRow(name: string, firstSeen: int, lastReportAt: int)

  type Mirror = map<MirrorKey, Data>

  datatype ServerState = ServerState(mirror: Mirror, cursors: map<Source, int>, hosts: map<string, HostRow>)

  datatype Reply = Accepted(cursor: int) | UnsupportedSchema | Malformed

  // ---------------------------------------------------------------------------------------------
  // Values as SQLite stores and compares them

  function Stored(v: Val): Val {
    if v.Bool? then Integer(if v.b then 1 else 0) else v
  }

  /** Integers and reals that are equal as numbers are the same key. */
  function Normal(v: Val): Val {
    if v.Real? && v.r == v.r.Floor as real then Integer(v.r.Floor) else v
  }

  predicate Before(a: string, b: string) {
    b != [] && (a == [] || a[0] < b[0] || (a[0] == b[0] && Before(a[1..], b[1..])))
  }

  function Number(v: Val): real
    requires v.Integer? || v.Real?
  {
    if v.Integer? then v.i as real else v.r
  }

  /** a > b in SQL: never with NULL; text is greater than numbers. */
  predicate Greater(a: Val, b: Val) {
    match (a, b)
    case (Str(s), Str(t)) => Before(t, s)
    case (Str(_), Integer(_)) => true
    case (Str(_), Real(_)) => true
    case (Integer(i), Integer(j)) => i > j
    case (Integer(_), Real(_)) => Number(a) > Number(b)
    case (Real(_), Integer(_)) => Number(a) > Number(b)
    case (Real(_), Real(_)) => Number(a) > Number(b)
    case _ => false
  }

  // ---------------------------------------------------------------------------------------------
  // Validation

  predicate Supported(v: Val) {
    !v.Other?
  }

  /** The row has its key and its revision. */
  predicate RowOk(r: Row) {
    && KeyColumn(r.table) in r.data && r.data[KeyColumn(r.table)] != Null
    && Rev in r.data && r.rev == (if r.data[Rev].Integer? then r.data[Rev].i else 0)
  }

  predicate ValidRow(r: Row) {
    && KnownTable(r.table)
    && r.data.Keys == Columns(r.table)
    && (forall c | c in r.data :: Supported(r.data[c]))
    && RowOk(r)
  }

  predicate RowsOk(rows: seq<Row>) {
    forall i | 0 <= i < |rows| :: RowOk(rows[i])
  }

  predicate ValidRows(rows: seq<Row>) {
    forall i | 0 <= i < |rows| :: ValidRow(rows[i])
  }

  // ---------------------------------------------------------------------------------------------
  // Rows of the mirror

  predicate MirrorOk(m: Mirror) {
    forall k | k in m :: Rev in m[k]
  }

  function StoredData(r: Row): (d: Data)
    ensures d.Keys == r.data.Keys
  {
    map c | c in r.data :: Stored(r.data[c])
  }

  function KeyOf(src: Source, r: Row): MirrorKey
    requires RowOk(r)
  {
    MirrorKey(src.host, src.instance, r.table, Normal(StoredData(r)[KeyColumn(r.table)]))
  }

  function Coalesce(a: Val, b: Val): Val {
    if a == Null then b else a
  }

  /** The mirrored row after a newer version arrives: references keep a value once they have one.
    Both versions have the columns of the table. */
  function Merge(t: Table, was: Data, now: Data): (d: Data)
    ensures d.Keys == was.Keys + now.Keys
  {
    map c | c in was.Keys + now.Keys ::
      if c !in now || (c in was && c == KeyColumn(t)) then was[c]
      else if IsReference(c) && c in was then Coalesce(now[c], was[c])
      else now[c]
  }

  function Upsert(m: Mirror, src: Source, r: Row): (m': Mirror)
    requires MirrorOk(m) && RowOk(r)
    ensures MirrorOk(m')
  {
    var k := KeyOf(src, r);
    var d := StoredData(r);
    if k !in m then m[k := d]
    else if Greater(d[Rev], m[k][Rev]) then m[k := Merge(r.table, m[k], d)]
    else m
  }

  function UpsertAll(m: Mirror, src: Source, rows: seq<Row>): (m': Mirror)
    requires MirrorOk(m) && RowsOk(rows)
    ensures MirrorOk(m')
  {
    if rows == [] then m
    else Upsert(UpsertAll(m, src, rows[..|rows| - 1]), src, rows[|rows| - 1])
  }

  function Max(a: int, b: int): int {
    if a < b then b else a
  }

  function MaxRev(rows: seq<Row>): (r: int)
    ensures r >= 0
  {
    if rows == [] then 0 else Max(MaxRev(rows[..|rows| - 1]), rows[|rows| - 1].rev)
  }

  function CursorOf(s: ServerState, src: Source): int {
    if src in s.cursors then s.cursors[src] else 0
  }

  predicate Accepts(b: Batch) {
    && b.schemaVersion == SCHEMA_VERSION
    && b.host.uuid != "" && b.instance != ""
    && |b.rows| <= MAX_ROWS
    && ValidRows(b.rows)
  }

  function SourceOf(b: Batch): Source {
    Source(b.host.uuid, b.instance)
  }

  /** What a batch does to the server's database, and the reply. */
  function Applied(s: ServerState, b: Batch, now: int): (res: (ServerState, Reply))
    requires MirrorOk(s.mirror)
    ensures MirrorOk(res.0.mirror)
    ensures res.1.Accepted? <==> Accepts(b)
    ensures !Accepts(b) ==> res.0 == s
  {
    if b.schemaVersion != SCHEMA_VERSION then (s, UnsupportedSchema)
    else if !Accepts(b) then (s, Malformed)
    else
      var src := SourceOf(b);
      var rev := MaxRev(b.rows);
      var cursor := if src in s.cursors then Max(s.cursors[src], rev) else rev;
      var firstSeen := if b.host.uuid in s.hosts then s.hosts[b.host.uuid].firstSeen else now;
      (ServerState(
         UpsertAll(s.mirror, src, b.rows),
         s.cursors[src := cursor],
         s.hosts[b.host.uuid := HostRow(b.host.name, firstSeen, now)]),
       Accepted(cursor))
  }

  // ---------------------------------------------------------------------------------------------
  // The server as it runs

  class ReportServer {
    var mirror: Mirror
    var cursors: map<Source, int>
    var hosts: map<string, HostRow>

    ghost function St(): ServerState
      reads this
    {
      ServerState(mirror, cursors, hosts)
    }

    constructor ()
      ensures St() == ServerState(map[], map[], map[])
    {
      mirror, cursors, hosts := map[], map[], map[];
    }

    method Validate(rows: seq<Row>) returns (ok: bool)
      ensures ok <==> ValidRows(rows)
    {
      var i: nat := 0;
      while i < |rows|
        invariant i <= |rows| && ValidRows(rows[..i])
      {
        if !ValidRow(rows[i]) {
          return false;
        }
        i := i + 1;
      }
      return true;
    }

    /** Inserts the row, or updates the mirrored one if the row's revision is newer. */
    method UpsertRow(src: Source, r: Row)
      requires MirrorOk(mirror) && RowOk(r)
      modifies `mirror
      ensures mirror == Upsert(old(mirror), src, r)
    {
      var k := KeyOf(src, r);
      var d := StoredData(r);
      if k !in mirror {
        mirror := mirror[k := d];
      } else if Greater(d[Rev], mirror[k][Rev]) {
        mirror := mirror[k := Merge(r.table, mirror[k], d)];
      }
    }

    method UpsertRows(src: Source, rows: seq<Row>) returns (maxRev: int)
      requires MirrorOk(mirror) && RowsOk(rows)
      modifies `mirror
      ensures mirror == UpsertAll(old(mirror), src, rows) && maxRev == MaxRev(rows)
    {
      maxRev := 0;
      var i: nat := 0;
      while i < |rows|
        invariant i <= |rows| && MirrorOk(mirror)
        invariant mirror == UpsertAll(old(mirror), src, rows[..i]) && maxRev == MaxRev(rows[..i])
      {
        assert rows[..i + 1][..i] == rows[..i];
        UpsertRow(src, rows[i]);
        maxRev := Max(maxRev, rows[i].rev);
        i := i + 1;
      }
      assert rows[..i] == rows;
    }

    /** Stores one batch: all of it or, if it is refused, nothing. */
    method Apply(b: Batch, now: int) returns (reply: Reply)
      requires MirrorOk(mirror)
      modifies this
      ensures (St(), reply) == Applied(old(St()), b, now)
    {
      if b.schemaVersion != SCHEMA_VERSION {
        return UnsupportedSchema;
      }
      if b.host.uuid == "" || b.instance == "" || |b.rows| > MAX_ROWS {
        return Malformed;
      }
      var ok := Validate(b.rows);
      if !ok {
        return Malformed;
      }
      var src := SourceOf(b);
      var firstSeen := if b.host.uuid in hosts then hosts[b.host.uuid].firstSeen else now;
      hosts := hosts[b.host.uuid := HostRow(b.host.name, firstSeen, now)];
      var maxRev := UpsertRows(src, b.rows);
      cursors := cursors[src := if src in cursors then Max(cursors[src], maxRev) else maxRev];
      return Accepted(cursors[src]);
    }

    /** How far an endpoint database has been mirrored; one that never reported starts at 0. */
    method Cursor(src: Source) returns (rev: int)
      ensures rev == CursorOf(St(), src)
    {
      if src !in cursors {
        return 0;
      }
      return cursors[src];
    }
  }
}
