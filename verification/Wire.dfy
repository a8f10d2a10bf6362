/** The protocol between an endpoint and the report server: tables, columns, rows and batches. */
module Wire {

  const SCHEMA_VERSION := 3
  const MAX_ROWS: nat := 1000

  datatype Table = Watches | Sessions | Profiles | Runs | RunEnv | Processes | Denials | Orphans | UnknownTable(table: string)

  datatype Column =
    | Id | Hash | Rev
    | ParentRunId | SessionId | ParentProcessId | ExecPrevProcessId | ProfileHash
    | WatchId | RunId | ProcessId
    | StartedAt | EndedAt | Time | FirstSeen | LastSeen
    | EndReason | OsVersion | BufferNs | Kind | Key | Text | Tag | TagCommand | Status | StartedBeforeWatch
    | ProfileSource | ProfilePath | ProfileName | ProfileError | ParamsJson | ExtraJson | CommandJson | Cwd
    | Name | Value | Pid | PidVersion | Ppid | Path | ArgsJson | IsPlatformBinary | SigningId | TeamId | CdHash
    | ExitStatus | ProcessName | Operation | Target | Message | Count | LastPath | LastPidVersion
    | UnknownColumn(column: string)

  /** A value of a row: the kinds the server accepts, and any other JSON value. */
  datatype Val = Null | Integer(i: int) | Real(r: real) | Str(s: string) | Bool(b: bool) | Other

  type Data = map<Column, Val>

  datatype Row = Row(table: Table, rev: int, data: Data)

  datatype Host = Host(uuid: string, name: string)

  datatype Batch = Batch(host: Host, instance: string, schemaVersion: int, rows: seq<Row>)

  /** The shipped tables, in the order they are read. */
  const TABLES: seq<Table> := [Watches, Sessions, Profiles, Runs, RunEnv, Processes, Denials, Orphans]

  predicate KnownTable(t: Table) {
    !t.UnknownTable?
  }

  function Columns(t: Table): set<Column>
    requires KnownTable(t)
  {
    match t
    case Watches => {Id, StartedAt, EndedAt, EndReason, OsVersion, BufferNs, Rev}
    case Sessions => {Id, Kind, Key, FirstSeen, LastSeen, Rev}
    case Profiles => {Hash, Text, Rev}
    case Runs => {Id, WatchId, Kind, ParentRunId, SessionId, Tag, TagCommand, StartedAt, EndedAt, Status, StartedBeforeWatch,
                  ProfileSource, ProfileHash, ProfilePath, ProfileName, ProfileError, ParamsJson, ExtraJson, CommandJson, Cwd, Rev}
    case RunEnv => {Id, RunId, Name, Value, Rev}
    case Processes => {Id, RunId, Pid, PidVersion, ParentProcessId, ExecPrevProcessId, Ppid, Path, ArgsJson, IsPlatformBinary,
                       SigningId, TeamId, CdHash, StartedAt, EndedAt, EndReason, ExitStatus, Rev}
    case Denials => {Id, RunId, ProcessId, Time, ProcessName, Pid, Operation, Target, Message, Count, Rev}
    case Orphans => {Id, WatchId, Time, ProcessName, Pid, Operation, Target, Message, Count, LastPath, LastPidVersion, Rev}
  }

  /** Columns in which the server keeps a value it has seen when a newer version of the row has NULL. */
  predicate IsReference(c: Column) {
    c == ParentRunId || c == SessionId || c == ParentProcessId || c == ExecPrevProcessId || c == ProfileHash
  }

  function KeyColumn(t: Table): Column {
    if t == Profiles then Hash else Id
  }
}
