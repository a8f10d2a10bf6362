/** The rows the correlator writes, and what each sink operation does to them.

  A row's id is its position in insertion order, so ids are fresh and increasing. */
module Tables {
  import opened Events

  datatype RunKind = SandboxExec | SandboxInit | Adopted
  datatype Status = Running | Exited | WatchStopped
  datatype EndReason = ByExit | ByExec | ByWatchStopped

  datatype SessionRow = SessionRow(kind: string, key: string, firstSeen: Time, lastSeen: Time)

  datatype Profile = Profile(source: string, text: string, path: string, name: string, error: string)

  /** `ends` counts the EndRun calls made for the row. */
  datatype RunRow = RunRow(
    kind: RunKind,
    parentRun: Option<nat>,
    session: Option<nat>,
    tag: string,
    tagCommand: string,
    startedAt: Time,
    startedBeforeWatch: bool,
    profile: Profile,
    params: seq<(string, string)>,
    extra: seq<string>,
    command: seq<string>,
    cwd: string,
    env: map<string, string>,
    status: Status,
    endedAt: Option<Time>,
    ends: nat)

  /** `ends` counts the EndProcess calls made for the row. */
  datatype ProcessRow = ProcessRow(
    run: nat,
    pid: int,
    pidversion: Option<int>,
    parent: Option<nat>,
    execPrev: Option<nat>,
    ppid: int,
    path: string,
    args: seq<string>,
    isPlatform: Option<bool>,
    signingID: string,
    teamID: string,
    cdhash: string,
    startedAt: Option<Time>,
    endedAt: Option<Time>,
    endReason: Option<EndReason>,
    exitStatus: Option<int>,
    ends: nat)

  datatype DenialRow = DenialRow(
    run: nat,
    process: nat,
    time: Time,
    name: string,
    pid: int,
    operation: string,
    target: string,
    message: string,
    count: int)

  datatype OrphanRow = OrphanRow(
    time: Time,
    name: string,
    pid: int,
    operation: string,
    target: string,
    message: string,
    count: int,
    lastPath: string,
    lastPidversion: Option<int>)

  function DenialRowKey(d: DenialRow): DenialKey {
    DenialKey(d.pid, d.operation, d.target)
  }

  function OrphanRowKey(o: OrphanRow): DenialKey {
    DenialKey(o.pid, o.operation, o.target)
  }

  datatype Tables = Tables(
    sessions: seq<SessionRow>,
    runs: seq<RunRow>,
    processes: seq<ProcessRow>,
    denials: seq<DenialRow>,
    orphans: seq<OrphanRow>)

  const NO_ROWS := Tables([], [], [], [], [])

  /** An absent or zero time is stored as NULL. */
  function NullTime(t: Option<Time>): Option<Time> {
    if t == Some(ZERO_TIME) then None else t
  }

  /** The position of the session (kind, key), or the number of sessions when there is none. */
  function FindSession(sessions: seq<SessionRow>, kind: string, key: string): (i: nat)
    ensures i <= |sessions|
    ensures i < |sessions| ==> sessions[i].kind == kind && sessions[i].key == key
    ensures forall j :: 0 <= j < i ==> sessions[j].kind != kind || sessions[j].key != key
  {
    if sessions == [] || (sessions[0].kind == kind && sessions[0].key == key) then 0
    else 1 + FindSession(sessions[1..], kind, key)
  }

  /** The sessions after EnsureSession: a new row, or a widened first/last seen interval. */
  function EnsuredSession(sessions: seq<SessionRow>, kind: string, key: string, t: Time): seq<SessionRow> {
    var i := FindSession(sessions, kind, key);
    if i == |sessions| then sessions + [SessionRow(kind, key, t, t)]
    else
      var row := sessions[i];
      sessions[i := row.(lastSeen := Later(row.lastSeen, t), firstSeen := if t < row.firstSeen then t else row.firstSeen)]
  }

  function EndedRun(row: RunRow, t: Option<Time>, status: Status): RunRow {
    row.(endedAt := NullTime(t), status := status, ends := row.ends + 1)
  }

  /** SetRunSession changes only a run that has no session. */
  function WithSession(row: RunRow, session: nat, tag: string, tagCommand: string): RunRow {
    if row.session.None? then row.(session := Some(session), tag := tag, tagCommand := tagCommand) else row
  }

  function EndedProcess(row: ProcessRow, t: Option<Time>, reason: EndReason, exitStatus: Option<int>): ProcessRow {
    row.(endedAt := NullTime(t), endReason := Some(reason), exitStatus := exitStatus, ends := row.ends + 1)
  }

  function SumDenials(rows: seq<DenialRow>, sel: DenialKey -> bool): int {
    if rows == [] then 0
    else
      var last := rows[|rows| - 1];
      SumDenials(rows[..|rows| - 1], sel) + if sel(DenialRowKey(last)) then last.count else 0
  }

  function SumOrphans(rows: seq<OrphanRow>, sel: DenialKey -> bool): int {
    if rows == [] then 0
    else
      var last := rows[|rows| - 1];
      SumOrphans(rows[..|rows| - 1], sel) + if sel(OrphanRowKey(last)) then last.count else 0
  }

  lemma {:induction false} SumDenialsAdd(rows: seq<DenialRow>, id: nat, n: int, sel: DenialKey -> bool)
    requires id < |rows|
    ensures SumDenials(rows[id := rows[id].(count := rows[id].count + n)], sel)
         == SumDenials(rows, sel) + if sel(DenialRowKey(rows[id])) then n else 0
  {
    var rows' := rows[id := rows[id].(count := rows[id].count + n)];
    var m := |rows| - 1;
    if id == m {
      assert rows'[..m] == rows[..m];
    } else {
      assert rows'[..m] == rows[..m][id := rows[..m][id].(count := rows[..m][id].count + n)];
      SumDenialsAdd(rows[..m], id, n, sel);
    }
  }

  lemma {:induction false} SumOrphansAdd(rows: seq<OrphanRow>, id: nat, n: int, sel: DenialKey -> bool)
    requires id < |rows|
    ensures SumOrphans(rows[id := rows[id].(count := rows[id].count + n)], sel)
         == SumOrphans(rows, sel) + if sel(OrphanRowKey(rows[id])) then n else 0
  {
    var rows' := rows[id := rows[id].(count := rows[id].count + n)];
    var m := |rows| - 1;
    if id == m {
      assert rows'[..m] == rows[..m];
    } else {
      assert rows'[..m] == rows[..m][id := rows[..m][id].(count := rows[..m][id].count + n)];
      SumOrphansAdd(rows[..m], id, n, sel);
    }
  }
}
