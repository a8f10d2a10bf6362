/** The correlator's state and the effect of every operation on it, as values.

  Images, runs and buffered denials are records in sequences; the pointers of the program are
  positions in those sequences. A record never moves, so a position identifies it for good. */
module Model {
  import opened Events
  import opened Tables
  import Sbx = SandboxArgs

  const SANDBOX_EXEC_PATH := "/usr/bin/sandbox-exec"
  /** How far apart the two streams may date the same moment. */
  const TIME_SLACK: Time := 5_000_000
  const MIN_RETENTION: Time := 30_000_000_000
  const LAG_CAP_FACTOR := 10

  datatype End = End(at: Time, reason: EndReason, exitStatus: Option<int>)

  /** One process image. `parent` forked it (or its process); `prev` exec'd into it. */
  datatype Image = Image(
    proc: Proc,
    args: seq<string>,
    cwd: string,
    execSeen: bool,
    noToken: bool,
    parent: Option<nat>,
    prev: Option<nat>,
    start: Time,
    end: Option<End>,
    run: Option<nat>,
    rowID: nat,
    denialKeys: seq<DenialKey>)

  datatype Run = Run(id: nat, kind: RunKind, live: set<nat>, lastEnd: Time, hasSession: bool, ended: bool)

  /** What became of a denial that was not added to an existing row. */
  datatype Fate = Buffered | Stored(row: nat) | Orphaned(row: nat) | Dropped

  datatype Pending = Pending(d: Denial, count: int, arrived: Time, fate: Fate)

  datatype StoredDenial = StoredDenial(id: nat, img: nat)

  datatype SeenInfo = SeenInfo(path: string, pidversion: int)

  /** Images, runs and the rows written so far. */
  datatype Graph = Graph(arena: seq<Image>, runs: seq<Run>, db: Tables)

  /** Tracked images, by token and by pid in start order. */
  datatype Index = Index(images: map<Token, nat>, byPID: map<int, seq<nat>>)

  datatype Buffer = Buffer(pendings: seq<Pending>, pendingByPID: map<int, seq<nat>>, lastPending: map<DenialKey, nat>)

  /** How repeat reports find their row, and the latest process seen for each pid. */
  datatype Routes = Routes(
    seen: map<int, SeenInfo>,
    lastStored: map<DenialKey, StoredDenial>,
    lastOrphan: map<DenialKey, nat>,
    orphanKeys: map<int, seq<DenialKey>>)

  datatype Caches = Caches(adopted: map<string, nat>, entitlements: map<string, bool>)

  datatype State = State(watermark: Time, graph: Graph, index: Index, buffer: Buffer, routes: Routes, caches: Caches)

  const INITIAL := State(
    ZERO_TIME,
    Graph([], [], NO_ROWS),
    Index(map[], map[]),
    Buffer([], map[], map[]),
    Routes(map[], map[], map[], map[]),
    Caches(map[], map[]))

  /** A session detector's verdict. */
  datatype Match = Match(kind: string, key: string, detail: string, raw: string)

  datatype FileText = Text(text: string) | ReadError(message: string)

  /** The correlator's configuration and its collaborators, as functions of their inputs.
    `entitlements` is None when sandbox-init candidates are disabled; an entitlement check
    answers None when it fails. */
  datatype Env = Env(
    buffer: Time,
    readFile: string -> FileText,
    joinPath: (string, string) -> string,
    pickEnv: seq<string> -> map<string, string>,
    detectRun: (string, seq<string>, map<string, string>) -> Option<Match>,
    detectDenial: string -> Option<Match>,
    entitlements: Option<(string, string) -> Option<bool>>)

  // ---------------------------------------------------------------------------------------------
  // Well-formedness: every reference names an existing record.

  predicate InRange(list: seq<nat>, n: nat) {
    forall k | 0 <= k < |list| :: list[k] < n
  }

  predicate EdgesOk(arena: seq<Image>) {
    forall i | 0 <= i < |arena| ::
      && (arena[i].parent.Some? ==> arena[i].parent.value < i)
      && (arena[i].prev.Some? ==> arena[i].prev.value < i)
  }

  predicate MembersOk(arena: seq<Image>, runs: nat, processes: nat) {
    forall i | 0 <= i < |arena| :: arena[i].run.Some? ==> arena[i].run.value < runs && arena[i].rowID < processes
  }

  predicate RunIdsOk(runs: seq<Run>) {
    forall r | 0 <= r < |runs| :: runs[r].id == r
  }

  predicate GraphOk(g: Graph) {
    && EdgesOk(g.arena)
    && MembersOk(g.arena, |g.runs|, |g.db.processes|)
    && |g.runs| == |g.db.runs|
    && RunIdsOk(g.runs)
  }

  predicate IndexOk(x: Index, n: nat) {
    && (forall tok | tok in x.images :: x.images[tok] < n)
    && (forall pid | pid in x.byPID :: InRange(x.byPID[pid], n))
  }

  predicate BufferOk(b: Buffer) {
    && (forall pid | pid in b.pendingByPID :: InRange(b.pendingByPID[pid], |b.pendings|))
    && (forall k | k in b.lastPending :: b.lastPending[k] < |b.pendings|)
  }

  predicate RoutesOk(t: Routes, images: nat, denials: nat, orphans: nat) {
    && (forall k | k in t.lastStored :: t.lastStored[k].id < denials && t.lastStored[k].img < images)
    && (forall k | k in t.lastOrphan :: t.lastOrphan[k] < orphans)
  }

  predicate CachesOk(c: Caches, runs: nat) {
    forall k | k in c.adopted :: c.adopted[k] < runs
  }

  predicate WF(s: State) {
    && GraphOk(s.graph)
    && IndexOk(s.index, |s.graph.arena|)
    && BufferOk(s.buffer)
    && RoutesOk(s.routes, |s.graph.arena|, |s.graph.db.denials|, |s.graph.db.orphans|)
    && CachesOk(s.caches, |s.graph.runs|)
  }

  // ---------------------------------------------------------------------------------------------
  // Images

  function ListOf<T>(m: map<int, seq<T>>, pid: int): (list: seq<T>)
    ensures pid !in m ==> list == []
    ensures pid in m ==> list == m[pid]
  {
    if pid in m then m[pid] else []
  }

  /** Stable sort of list + [i] by start, for a list that is already sorted. */
  function InsertByStart(arena: seq<Image>, list: seq<nat>, i: nat): (r: seq<nat>)
    requires i < |arena| && InRange(list, |arena|)
    ensures InRange(r, |arena|)
  {
    if list == [] || arena[list[|list| - 1]].start <= arena[i].start then list + [i]
    else InsertByStart(arena, list[..|list| - 1], i) + [list[|list| - 1]]
  }

  /** An image about to be registered at position n. */
  predicate FreshImage(img: Image, n: nat) {
    && (img.parent.Some? ==> img.parent.value < n)
    && (img.prev.Some? ==> img.prev.value < n)
    && img.end.None? && img.run.None? && img.rowID == 0 && img.denialKeys == []
  }

  function Indexed(x: Index, arena: seq<Image>, i: nat): (x': Index)
    requires i < |arena| && IndexOk(x, |arena|)
    ensures IndexOk(x', |arena|)
  {
    var img := arena[i];
    var pid := img.proc.token.pid;
    Index(if img.noToken then x.images else x.images[img.proc.token := i],
          x.byPID[pid := InsertByStart(arena, ListOf(x.byPID, pid), i)])
  }

  /** Adds a new image; its position is the old number of images. */
  function Register(s: State, img: Image): (s': State)
    requires WF(s) && FreshImage(img, |s.graph.arena|)
    ensures WF(s')
  {
    var arena := s.graph.arena + [img];
    s.(graph := s.graph.(arena := arena), index := Indexed(s.index, arena, |s.graph.arena|))
  }

  function Untracked(p: Proc): Image {
    Image(p, [], "", false, false, None, None, p.startTime, None, None, 0, [])
  }

  /** Tracks the actor of an event, which may predate the watch. */
  function ImageFor(s: State, p: Proc): (s': State)
    requires WF(s)
    ensures WF(s') && p.token in s'.index.images
  {
    if p.token in s.index.images then s else Register(s, Untracked(p))
  }

  function MarkSeen(t: Routes, p: Proc): (t': Routes)
    ensures t'.lastStored == t.lastStored
    ensures forall k | k in t'.lastOrphan :: k in t.lastOrphan && t'.lastOrphan[k] == t.lastOrphan[k]
  {
    var pid := p.token.pid;
    var seen := t.seen[pid := SeenInfo(p.path, p.token.pidversion)];
    if pid in t.seen && t.seen[pid].pidversion != p.token.pidversion
    then Routes(seen, t.lastStored, t.lastOrphan - (set k | k in ListOf(t.orphanKeys, pid)), t.orphanKeys - {pid})
    else t.(seen := seen)
  }

  /** Whether image i is cur or one that cur's image was exec'd from. */
  predicate OnExecChain(arena: seq<Image>, cur: Option<nat>, i: nat)
    requires EdgesOk(arena)
    requires cur.Some? ==> cur.value < |arena|
    decreases if cur.Some? then cur.value + 1 else 0
  {
    cur.Some? && (cur.value == i || OnExecChain(arena, arena[cur.value].prev, i))
  }

  /** Whether image i or what it exec'd into is the latest holder of its pid. */
  predicate IsCurrent(arena: seq<Image>, x: Index, i: nat)
    requires EdgesOk(arena) && IndexOk(x, |arena|) && i < |arena|
  {
    var list := ListOf(x.byPID, arena[i].proc.token.pid);
    list != [] && OnExecChain(arena, Some(list[|list| - 1]), i)
  }

  /** The image that was the pid of this list at time t. */
  function ResolveIn(arena: seq<Image>, list: seq<nat>, t: Time): (i: Option<nat>)
    requires InRange(list, |arena|)
    ensures i.Some? ==> i.value < |arena|
  {
    if list == [] then None
    else
      var img := arena[list[|list| - 1]];
      if img.start > t + TIME_SLACK then ResolveIn(arena, list[..|list| - 1], t)
      else if img.end.Some? && img.end.value.at < t - TIME_SLACK then None
      else Some(list[|list| - 1])
  }

  function Resolve(s: State, pid: int, t: Time): (i: Option<nat>)
    requires WF(s)
    ensures i.Some? ==> i.value < |s.graph.arena|
  {
    ResolveIn(s.graph.arena, ListOf(s.index.byPID, pid), t)
  }

  // ---------------------------------------------------------------------------------------------
  // Runs

  /** Appends a run and its row; its position is the old number of runs. */
  function AddRun(g: Graph, row: RunRow, hasSession: bool): (g': Graph)
    requires GraphOk(g)
    ensures GraphOk(g')
  {
    g.(runs := g.runs + [Run(|g.db.runs|, row.kind, {}, ZERO_TIME, hasSession, false)],
       db := g.db.(runs := g.db.runs + [row]))
  }

  function RowOfMember(arena: seq<Image>, i: Option<nat>, r: nat): Option<nat>
    requires i.Some? ==> i.value < |arena|
  {
    if i.Some? && arena[i.value].run == Some(r) then Some(arena[i.value].rowID) else None
  }

  /** The process row of an image that joins run r. */
  function NewProcessRow(arena: seq<Image>, img: Image, r: nat): ProcessRow
    requires img.parent.Some? ==> img.parent.value < |arena|
    requires img.prev.Some? ==> img.prev.value < |arena|
  {
    ProcessRow(
      r,
      img.proc.token.pid,
      if img.noToken then None else Some(img.proc.token.pidversion),
      RowOfMember(arena, img.parent, r),
      RowOfMember(arena, img.prev, r),
      img.proc.ppid,
      img.proc.path,
      img.args,
      if img.noToken then None else Some(img.proc.isPlatform),
      img.proc.signingID,
      img.proc.teamID,
      img.proc.cdhash,
      NullTime(Some(img.start)),
      None,
      None,
      None,
      0)
  }

  function EndedBy(row: ProcessRow, end: End): ProcessRow {
    EndedProcess(row, Some(end.at), end.reason, end.exitStatus)
  }

  /** Image i becomes a member of run r, with a row of its own. Membership is for good: a second join
    does nothing. */
  function Join(g: Graph, i: nat, r: nat): (g': Graph)
    requires GraphOk(g) && i < |g.arena| && r < |g.runs|
    ensures GraphOk(g')
  {
    var img := g.arena[i];
    if img.run.Some? then g
    else
      var row := NewProcessRow(g.arena, img, r);
      var run := g.runs[r];
      Graph(
        g.arena[i := img.(run := Some(r), rowID := |g.db.processes|)],
        g.runs[r := if img.end.None? then run.(live := run.live + {i}) else run.(lastEnd := Later(run.lastEnd, img.end.value.at))],
        g.db.(processes := g.db.processes + [if img.end.None? then row else EndedBy(row, img.end.value)]))
  }

  function MaybeEndRun(g: Graph, r: nat): (g': Graph)
    requires GraphOk(g) && r < |g.runs|
    ensures GraphOk(g')
  {
    var run := g.runs[r];
    if run.ended || run.kind == Adopted || run.live != {} then g
    else
      g.(runs := g.runs[r := run.(ended := true)],
         db := g.db.(runs := g.db.runs[r := EndedRun(g.db.runs[r], Some(run.lastEnd), Exited)]))
  }

  /** Ends image i in its run, without deciding whether the run ends too. */
  function EndMember(g: Graph, i: nat, end: End): (g': Graph)
    requires GraphOk(g) && i < |g.arena|
    ensures GraphOk(g')
  {
    var img := g.arena[i];
    var arena := g.arena[i := img.(end := Some(end))];
    if img.run.None? then g.(arena := arena)
    else
      var r := img.run.value;
      var run := g.runs[r];
      Graph(
        arena,
        g.runs[r := run.(live := run.live - {i}, lastEnd := Later(run.lastEnd, end.at))],
        g.db.(processes := g.db.processes[img.rowID := EndedBy(g.db.processes[img.rowID], end)]))
  }

  function EndImage(g: Graph, i: nat, end: End): (g': Graph)
    requires GraphOk(g) && i < |g.arena|
    ensures GraphOk(g') && |g'.arena| == |g.arena| && |g'.runs| == |g.runs|
    ensures g'.db.denials == g.db.denials && g'.db.orphans == g.db.orphans
  {
    if g.arena[i].end.Some? then g
    else
      var g1 := EndMember(g, i, end);
      if g.arena[i].run.Some? then MaybeEndRun(g1, g.arena[i].run.value) else g1
  }
}
