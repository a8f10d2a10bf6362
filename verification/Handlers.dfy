/** The correlator's operations: process events, denials, ticks, eviction and shutdown. */
module Handlers {
  import opened Events
  import opened Tables
  import opened Model
  import Sbx = SandboxArgs

  // ---------------------------------------------------------------------------------------------
  // Process events

  function Forked(ev: Event, parent: nat, args: seq<string>, cwd: string): Image {
    Image(ev.target, args, cwd, false, false, Some(parent), None, ev.time, None, None, 0, [])
  }

  function Execed(ev: Event, actor: nat, parent: Option<nat>): Image {
    Image(ev.target, ev.args, ev.cwd, true, false, parent, Some(actor), ev.time, None, None, 0, [])
  }

  /** Tracks the actor and records both processes of a fork or exec as seen. */
  function SeeBoth(s: State, ev: Event): (s': State)
    requires WF(s)
    ensures WF(s') && ev.process.token in s'.index.images
  {
    var s1 := ImageFor(s, ev.process);
    s1.(routes := MarkSeen(MarkSeen(s1.routes, ev.process), ev.target))
  }

  function HandleFork(s: State, ev: Event): (s': State)
    requires WF(s)
    ensures WF(s')
  {
    var s1 := SeeBoth(s, ev);
    if ev.target.token in s1.index.images then s1
    else
      var parent := s1.index.images[ev.process.token];
      var img := s1.graph.arena[parent];
      var s2 := Register(s1, Forked(ev, parent, img.args, img.cwd));
      if img.run.Some? then s2.(graph := Join(s2.graph, |s1.graph.arena|, img.run.value)) else s2
  }

  function SourceName(source: Sbx.ProfileSource): string {
    match source
    case Inline => "inline"
    case File => "file"
    case Named => "named"
    case Unknown => "unknown"
  }

  /** What is known of the profile when the sandbox-exec image starts. */
  function CaptureProfile(e: Env, spec: Sbx.ProfileSpec, cwd: string): Profile {
    var p := Profile(SourceName(spec.source), "", "", "", spec.err);
    match spec.source
    case Inline => p.(text := spec.inline)
    case Named => p.(name := spec.name)
    case Unknown => p
    case File =>
      var absolute := spec.file != "" && spec.file[0] == '/';
      var path := if !absolute && cwd != "" then e.joinPath(cwd, spec.file) else spec.file;
      match e.readFile(path)
      case Text(text) => p.(path := path, text := text)
      case ReadError(message) => p.(path := path, error := "read profile: " + message)
  }

  function SandboxExecRow(e: Env, ev: Event, parentRun: Option<nat>): RunRow {
    var spec := Sbx.Parsed(ev.args);
    RunRow(SandboxExec, parentRun, None, "", "", ev.time, false, CaptureProfile(e, spec, ev.cwd),
           spec.params, spec.extra, spec.command, ev.cwd, e.pickEnv(ev.env), Running, None, 0)
  }

  function WithSessions(g: Graph, m: Match, t: Time): (g': Graph)
    requires GraphOk(g)
    ensures GraphOk(g')
  {
    g.(db := g.db.(sessions := EnsuredSession(g.db.sessions, m.kind, m.key, t)))
  }

  /** Creates the run of a sandbox-exec image that is exec'd inside the run `parent`. */
  function StartSandboxExecRun(e: Env, g: Graph, ev: Event, parent: Option<nat>): (g': Graph)
    requires GraphOk(g)
    ensures GraphOk(g') && g'.arena == g.arena && |g'.runs| == |g.runs| + 1
  {
    var row := SandboxExecRow(e, ev, parent);
    match e.detectRun(row.profile.text, ev.args, row.env)
    case None => AddRun(g, row, false)
    case Some(m) =>
      var sid := FindSession(g.db.sessions, m.kind, m.key);
      AddRun(WithSessions(g, m, ev.time), row.(session := Some(sid), tag := m.raw, tagCommand := m.detail), true)
  }

  /** Puts the new image i of an exec into its run: a sandbox-exec image starts a new one. */
  function JoinExeced(e: Env, g: Graph, ev: Event, i: nat, actorRun: Option<nat>): (g': Graph)
    requires GraphOk(g) && i < |g.arena| && (actorRun.Some? ==> actorRun.value < |g.runs|)
    ensures GraphOk(g') && |g'.arena| == |g.arena| && |g'.runs| >= |g.runs|
    ensures g'.db.denials == g.db.denials && g'.db.orphans == g.db.orphans
  {
    if ev.target.path == SANDBOX_EXEC_PATH then Join(StartSandboxExecRun(e, g, ev, actorRun), i, |g.runs|)
    else if actorRun.Some? then Join(g, i, actorRun.value)
    else g
  }

  /** What an exec does to runs. The order matters: were the old image to end first, a run of which it
    is the last member would be over before the new image is in it. */
  function FinishExec(e: Env, g: Graph, ev: Event, i: nat, actor: nat): (g': Graph)
    requires GraphOk(g) && i < |g.arena| && actor < |g.arena|
    ensures GraphOk(g') && |g'.arena| == |g.arena| && |g'.runs| >= |g.runs|
    ensures g'.db.denials == g.db.denials && g'.db.orphans == g.db.orphans
  {
    EndImage(JoinExeced(e, g, ev, i, g.arena[actor].run), actor, End(ev.time, ByExec, None))
  }

  function HandleExec(e: Env, s: State, ev: Event): (s': State)
    requires WF(s)
    ensures WF(s')
  {
    var s1 := SeeBoth(s, ev);
    if ev.target.token in s1.index.images then s1
    else
      var actor := s1.index.images[ev.process.token];
      var img := s1.graph.arena[actor];
      var s2 := Register(s1, Execed(ev, actor, img.parent));
      s2.(graph := FinishExec(e, s2.graph, ev, |s1.graph.arena|, actor))
  }

  function HandleExit(s: State, ev: Event): (s': State)
    requires WF(s)
    ensures WF(s')
  {
    if ev.process.token in s.index.images
    then s.(graph := EndImage(s.graph, s.index.images[ev.process.token], End(ev.time, ByExit, Some(ev.exitStatus))))
    else s
  }

  function HandleES(e: Env, s: State, ev: Event): (s': State)
    requires WF(s)
    ensures WF(s')
  {
    var s1 := s.(watermark := Later(s.watermark, ev.time));
    match ev.kind
    case Fork => HandleFork(s1, ev)
    case Exec => HandleExec(e, s1, ev)
    case Exit => HandleExit(s1, ev)
    case OtherKind => s1
  }

  // ---------------------------------------------------------------------------------------------
  // Attribution

  /** The watermark has passed t, so process events around t are complete. */
  predicate CaughtUp(s: State, t: Time) {
    s.watermark > t + TIME_SLACK
  }

  function Detect(e: Env, message: string): Option<Match> {
    if message == "" then None else e.detectDenial(message)
  }

  function ForgetPending(b: Buffer, p: nat): (b': Buffer)
    requires BufferOk(b) && p < |b.pendings|
    ensures BufferOk(b')
  {
    var key := KeyOf(b.pendings[p].d);
    if key in b.lastPending && b.lastPending[key] == p then b.(lastPending := b.lastPending - {key}) else b
  }

  function Decided(b: Buffer, p: nat, fate: Fate): (b': Buffer)
    requires BufferOk(b) && p < |b.pendings|
    ensures BufferOk(b')
  {
    b.(pendings := b.pendings[p := b.pendings[p].(fate := fate)])
  }

  /** Attaches a session to run r from a denial's message, unless it has one. */
  function AttachSession(e: Env, g: Graph, r: nat, d: Denial): (g': Graph)
    requires GraphOk(g) && r < |g.runs|
    ensures GraphOk(g')
  {
    var m := Detect(e, d.message);
    if g.runs[r].hasSession || m.None? then g
    else
      var sid := FindSession(g.db.sessions, m.value.kind, m.value.key);
      var g1 := WithSessions(g, m.value, d.time);
      g1.(runs := g.runs[r := g.runs[r].(hasSession := true)],
          db := g1.db.(runs := g.db.runs[r := WithSession(g.db.runs[r], sid, m.value.raw, m.value.detail)]))
  }

  function NewDenialRow(d: Denial, count: int, run: nat, process: nat): DenialRow {
    DenialRow(run, process, d.time, d.name, d.pid, d.operation, d.target, d.message, count)
  }

  /** Adds the denial's row and its key to image i. */
  function WithDenial(g: Graph, i: nat, row: DenialRow, known: bool): (g': Graph)
    requires GraphOk(g) && i < |g.arena|
    ensures GraphOk(g')
  {
    var img := g.arena[i];
    var keys := if known then img.denialKeys else img.denialKeys + [DenialRowKey(row)];
    g.(arena := g.arena[i := img.(denialKeys := keys)], db := g.db.(denials := g.db.denials + [row]))
  }

  /** Writes the denial row of buffered denial p at image i, and remembers it for repeats. */
  function StoreDenial(s: State, p: nat, i: nat): (s': State)
    requires WF(s) && p < |s.buffer.pendings| && i < |s.graph.arena| && s.graph.arena[i].run.Some?
    ensures WF(s')
  {
    var q := s.buffer.pendings[p];
    var key := KeyOf(q.d);
    var id := |s.graph.db.denials|;
    var img := s.graph.arena[i];
    var known := key in s.routes.lastStored && s.routes.lastStored[key].img == i;
    s.(graph := WithDenial(s.graph, i, NewDenialRow(q.d, q.count, img.run.value, img.rowID), known),
       routes := s.routes.(lastStored := s.routes.lastStored[key := StoredDenial(id, i)]),
       buffer := Decided(s.buffer, p, Stored(id)))
  }

  /** Deciding a denial leaves the lists of buffered denials to the caller. */
  predicate SameBuffered(s: State, s': State) {
    && |s'.buffer.pendings| == |s.buffer.pendings|
    && s'.buffer.pendingByPID == s.buffer.pendingByPID
  }

  function Attribute(e: Env, s: State, p: nat, i: nat): (s': State)
    requires WF(s) && p < |s.buffer.pendings| && i < |s.graph.arena| && s.graph.arena[i].run.Some?
    ensures WF(s') && SameBuffered(s, s')
  {
    var s1 := StoreDenial(s, p, i);
    s1.(buffer := ForgetPending(s1.buffer, p),
        graph := AttachSession(e, s1.graph, s.graph.arena[i].run.value, s.buffer.pendings[p].d))
  }

  // ---------------------------------------------------------------------------------------------
  // Arrival of denials

  function AddDenialCount(g: Graph, id: nat, n: int): (g': Graph)
    requires GraphOk(g) && id < |g.db.denials|
    ensures GraphOk(g')
  {
    g.(db := g.db.(denials := g.db.denials[id := g.db.denials[id].(count := g.db.denials[id].count + n)]))
  }

  function AddOrphanCount(g: Graph, id: nat, n: int): (g': Graph)
    requires GraphOk(g) && id < |g.db.orphans|
    ensures GraphOk(g')
  {
    g.(db := g.db.(orphans := g.db.orphans[id := g.db.orphans[id].(count := g.db.orphans[id].count + n)]))
  }

  function AddPendingCount(b: Buffer, p: nat, n: int): (b': Buffer)
    requires BufferOk(b) && p < |b.pendings|
    ensures BufferOk(b')
  {
    b.(pendings := b.pendings[p := b.pendings[p].(count := b.pendings[p].count + n)])
  }

  function NewPending(b: Buffer, d: Denial, now: Time): (b': Buffer)
    requires BufferOk(b)
    ensures BufferOk(b')
  {
    b.(pendings := b.pendings + [Pending(d, Weight(d), now, Buffered)])
  }

  function Enqueue(b: Buffer, p: nat): (b': Buffer)
    requires BufferOk(b) && p < |b.pendings|
    ensures BufferOk(b')
  {
    var d := b.pendings[p].d;
    b.(pendingByPID := b.pendingByPID[d.pid := ListOf(b.pendingByPID, d.pid) + [p]],
       lastPending := b.lastPending[KeyOf(d) := p])
  }

  /** The image to attribute a denial to right away, if process events are complete. */
  function Attributable(s: State, d: Denial): (i: Option<nat>)
    requires WF(s)
    ensures i.Some? ==> i.value < |s.graph.arena| && s.graph.arena[i.value].run.Some?
  {
    var i := Resolve(s, d.pid, d.time);
    if CaughtUp(s, d.time) && i.Some? && s.graph.arena[i.value].run.Some? then i else None
  }

  /** A denial that does not repeat a known one: attributed at once or buffered. */
  function TakeDenial(e: Env, s: State, d: Denial, now: Time): (s': State)
    requires WF(s)
    ensures WF(s')
  {
    var p := |s.buffer.pendings|;
    var s1 := s.(buffer := NewPending(s.buffer, d, now));
    var i := Attributable(s, d);
    if i.Some? then Attribute(e, s1, p, i.value) else s1.(buffer := Enqueue(s1.buffer, p))
  }

  datatype Route = ToPending(p: nat) | ToDenialRow(id: nat) | ToOrphanRow(id: nat) | NoRow

  /** Where a repeat report is counted. */
  function RouteOf(s: State, d: Denial): (r: Route)
    requires WF(s)
    ensures r.ToPending? ==> r.p < |s.buffer.pendings|
    ensures r.ToDenialRow? ==> r.id < |s.graph.db.denials|
    ensures r.ToOrphanRow? ==> r.id < |s.graph.db.orphans|
  {
    var key := KeyOf(d);
    if d.duplicate <= 0 then NoRow
    else if key in s.buffer.lastPending then ToPending(s.buffer.lastPending[key])
    else if key in s.routes.lastStored && IsCurrent(s.graph.arena, s.index, s.routes.lastStored[key].img)
    then ToDenialRow(s.routes.lastStored[key].id)
    else if key in s.routes.lastOrphan then ToOrphanRow(s.routes.lastOrphan[key])
    else NoRow
  }

  function HandleDenial(e: Env, s: State, d: Denial, now: Time): (s': State)
    requires WF(s)
    ensures WF(s')
  {
    match RouteOf(s, d)
    case ToPending(p) => s.(buffer := AddPendingCount(s.buffer, p, d.duplicate))
    case ToDenialRow(id) => s.(graph := AddDenialCount(s.graph, id, d.duplicate))
    case ToOrphanRow(id) => s.(graph := AddOrphanCount(s.graph, id, d.duplicate))
    case NoRow => TakeDenial(e, s, d, now)
  }

  // ---------------------------------------------------------------------------------------------
  // Candidates: sandbox_init() users

  /** A possible user of sandbox_init(): going up the forks leads to an image whose exec was seen, over
    images of one path, none of them a platform binary. */
  predicate Eligible(arena: seq<Image>, i: nat)
    requires i < |arena| && EdgesOk(arena)
    decreases i
  {
    var img := arena[i];
    && !img.noToken && !img.proc.isPlatform
    && (img.execSeen
        || (&& img.parent.Some?
            && arena[img.parent.value].proc.path == img.proc.path
            && Eligible(arena, img.parent.value)))
  }

  /** The exec'd image at the top of an eligible image's fork chain. */
  function RootOf(arena: seq<Image>, i: nat): (root: nat)
    requires i < |arena| && EdgesOk(arena) && Eligible(arena, i)
    ensures root <= i && arena[root].execSeen
    decreases i
  {
    if arena[i].execSeen then i else RootOf(arena, arena[i].parent.value)
  }

  /** The fork chain of an eligible image, from its exec'd root down. */
  function PathTo(arena: seq<Image>, i: nat): (path: seq<nat>)
    requires i < |arena| && EdgesOk(arena) && Eligible(arena, i)
    ensures InRange(path, |arena|) && path != [] && path[0] == RootOf(arena, i) && path[|path| - 1] == i
    decreases i
  {
    if arena[i].execSeen then [i] else PathTo(arena, arena[i].parent.value) + [i]
  }

  function JoinAll(g: Graph, path: seq<nat>, r: nat): (g': Graph)
    requires GraphOk(g) && InRange(path, |g.arena|) && r < |g.runs|
    ensures GraphOk(g') && |g'.arena| == |g.arena| && |g'.runs| == |g.runs|
    ensures g'.db == g.db.(processes := g'.db.processes)
    ensures path != [] ==> g'.arena[path[|path| - 1]].run.Some?
  {
    if path == [] then g
    else Join(JoinAll(g, path[..|path| - 1], r), path[|path| - 1], r)
  }

  function EntitlementKey(p: Proc): string {
    if p.cdhash == "" then "path:" + p.path else p.cdhash
  }

  /** Whether the root is app-sandboxed, from the cache or a new check; a failed check is no. */
  function AppSandboxed(e: Env, c: Caches, root: Proc): bool
    requires e.entitlements.Some?
  {
    var key := EntitlementKey(root);
    if key in c.entitlements then c.entitlements[key] else (e.entitlements.value)(root.path, root.cdhash) == Some(true)
  }

  function SandboxInitRow(root: Image): RunRow {
    RunRow(SandboxInit, None, None, "", "", root.start, false, Profile("unknown", "", "", "", ""),
           [], [], root.args, root.cwd, map[], Running, None, 0)
  }

  /** Whether candidateRun(i) yields a run. */
  predicate IsCandidate(e: Env, s: State, i: nat)
    requires WF(s) && i < |s.graph.arena| && e.entitlements.Some?
  {
    && Eligible(s.graph.arena, i)
    && var root := s.graph.arena[RootOf(s.graph.arena, i)];
       root.run.Some? || !AppSandboxed(e, s.caches, root.proc)
  }

  /** The entitlement cache after candidateRun(i). */
  function CheckedEntitlement(e: Env, s: State, i: nat): (c: Caches)
    requires WF(s) && i < |s.graph.arena| && e.entitlements.Some?
    ensures c.adopted == s.caches.adopted
  {
    if !Eligible(s.graph.arena, i) then s.caches
    else
      var root := s.graph.arena[RootOf(s.graph.arena, i)];
      if root.run.Some? then s.caches
      else s.caches.(entitlements := s.caches.entitlements[EntitlementKey(root.proc) := AppSandboxed(e, s.caches, root.proc)])
  }

  /** Joins image i and its unjoined fork ancestors to the root's run, which is created if needed. */
  function JoinCandidate(g: Graph, i: nat): (g': Graph)
    requires GraphOk(g) && i < |g.arena| && Eligible(g.arena, i)
    ensures GraphOk(g') && |g'.arena| == |g.arena| && |g'.runs| >= |g.runs| && g'.arena[i].run.Some?
    ensures g'.db == g.db.(runs := g'.db.runs, processes := g'.db.processes)
  {
    var root := g.arena[RootOf(g.arena, i)];
    var g1 := if root.run.Some? then g else AddRun(g, SandboxInitRow(root), false);
    var r := if root.run.Some? then root.run.value else |g.runs|;
    MaybeEndRun(JoinAll(g1, PathTo(g.arena, i), r), r)
  }

  // ---------------------------------------------------------------------------------------------
  // Decisions on buffered denials

  function AdoptionKey(m: Match): string {
    m.kind + [0 as char] + m.raw
  }

  function AdoptedRow(m: Match, d: Denial, sid: nat): RunRow {
    RunRow(Adopted, None, Some(sid), m.raw, m.detail, d.time, true, Profile("unknown", "", "", "", ""),
           [], [], [], "", map[], Running, None, 0)
  }

  /** The state after adopting the pre-existing run that tag m names; its run is in `adopted`. */
  function Adopt(s: State, m: Match, d: Denial): (s': State)
    requires WF(s)
    ensures WF(s') && AdoptionKey(m) in s'.caches.adopted && s'.graph.arena == s.graph.arena
    ensures s'.buffer == s.buffer
  {
    var key := AdoptionKey(m);
    if key in s.caches.adopted then s
    else
      var sid := FindSession(s.graph.db.sessions, m.kind, m.key);
      s.(graph := AddRun(WithSessions(s.graph, m, d.time), AdoptedRow(m, d, sid), true),
         caches := s.caches.(adopted := s.caches.adopted[key := |s.graph.runs|]))
  }

  /** The image standing for a pid that no process event ever named. */
  function Stub(pid: int): Image {
    Image(Proc(Token(pid, 0), 0, "", false, "", "", "", ZERO_TIME), [], "", false, true, None, None, ZERO_TIME, None, None, 0, [])
  }

  function AdoptDenial(e: Env, s: State, p: nat, i: Option<nat>, m: Match): (s': State)
    requires WF(s) && p < |s.buffer.pendings| && (i.Some? ==> i.value < |s.graph.arena|)
    ensures WF(s') && SameBuffered(s, s')
  {
    var d := s.buffer.pendings[p].d;
    var s1 := Adopt(s, m, d);
    var r := s1.caches.adopted[AdoptionKey(m)];
    var k := if i.Some? then i.value else |s1.graph.arena|;
    var s2 := if i.Some? then s1 else Register(s1, Stub(d.pid));
    Attribute(e, s2.(graph := Join(s2.graph, k, r)), p, k)
  }

  function OrphanRowOf(q: Pending, info: SeenInfo): OrphanRow {
    OrphanRow(q.d.time, q.d.name, q.d.pid, q.d.operation, q.d.target, q.d.message, q.count, info.path, Some(info.pidversion))
  }

  function RememberOrphan(t: Routes, key: DenialKey, id: nat): Routes {
    t.(orphanKeys := if key in t.lastOrphan then t.orphanKeys else t.orphanKeys[key.pid := ListOf(t.orphanKeys, key.pid) + [key]],
       lastOrphan := t.lastOrphan[key := id])
  }

  /** A denial no run claims: an orphan if its pid was ever seen, otherwise dropped. */
  function StoreOrphan(s: State, p: nat): (s': State)
    requires WF(s) && p < |s.buffer.pendings|
    ensures WF(s') && SameBuffered(s, s')
  {
    var q := s.buffer.pendings[p];
    if q.d.pid !in s.routes.seen then s.(buffer := Decided(s.buffer, p, Dropped))
    else
      var id := |s.graph.db.orphans|;
      s.(graph := s.graph.(db := s.graph.db.(orphans := s.graph.db.orphans + [OrphanRowOf(q, s.routes.seen[q.d.pid])])),
         routes := RememberOrphan(s.routes, KeyOf(q.d), id),
         buffer := Decided(s.buffer, p, Orphaned(id)))
  }

  function FinalizeCandidate(e: Env, s: State, p: nat, i: nat): (s': State)
    requires WF(s) && p < |s.buffer.pendings| && i < |s.graph.arena| && e.entitlements.Some?
    ensures WF(s') && SameBuffered(s, s')
  {
    var s1 := s.(caches := CheckedEntitlement(e, s, i));
    if IsCandidate(e, s, i) then Attribute(e, s1.(graph := JoinCandidate(s.graph, i)), p, i)
    else StoreOrphan(s1, p)
  }

  /** Denial p leaves the buffer one way or another. A run of the image it resolved to comes first, then a
    session tag, then a sandbox-init candidate; without `classify` only the first is tried. */
  function Finalize(e: Env, s0: State, p: nat, classify: bool): (s': State)
    requires WF(s0) && p < |s0.buffer.pendings|
    ensures WF(s') && SameBuffered(s0, s')
  {
    var s := s0.(buffer := ForgetPending(s0.buffer, p));
    var d := s.buffer.pendings[p].d;
    var i := Resolve(s, d.pid, d.time);
    var m := Detect(e, d.message);
    if i.Some? && s.graph.arena[i.value].run.Some? then Attribute(e, s, p, i.value)
    else if m.Some? && classify then AdoptDenial(e, s, p, i, m.value)
    else if i.Some? && classify && e.entitlements.Some? then FinalizeCandidate(e, s, p, i.value)
    else StoreOrphan(s, p)
  }

  datatype Verdict = FinalizeFully | FinalizeLagging | AttributeTo(img: nat) | Keep

  /** What Tick does with buffered denial p. */
  function Judge(e: Env, s: State, p: nat, now: Time): (v: Verdict)
    requires WF(s) && p < |s.buffer.pendings|
    ensures v.AttributeTo? ==> v.img < |s.graph.arena| && s.graph.arena[v.img].run.Some?
  {
    var q := s.buffer.pendings[p];
    var waited := now - q.arrived;
    var caught := CaughtUp(s, q.d.time);
    if caught && waited >= e.buffer then FinalizeFully
    else if waited >= LAG_CAP_FACTOR * e.buffer then FinalizeLagging
    else
      var i := Attributable(s, q.d);
      if i.Some? then AttributeTo(i.value) else Keep
  }

  function TickOne(e: Env, s: State, p: nat, now: Time): (s': State)
    requires WF(s) && p < |s.buffer.pendings|
    ensures WF(s') && SameBuffered(s, s')
  {
    match Judge(e, s, p, now)
    case FinalizeFully => Finalize(e, s, p, true)
    case FinalizeLagging => Finalize(e, s, p, false)
    case AttributeTo(i) => Attribute(e, s, p, i)
    case Keep => s
  }

  /** The state after one pid's list, and the denials that stay buffered. */
  function TickList(e: Env, s: State, list: seq<nat>, now: Time): (res: (State, seq<nat>))
    requires WF(s) && InRange(list, |s.buffer.pendings|)
    ensures WF(res.0) && SameBuffered(s, res.0)
    ensures InRange(res.1, |s.buffer.pendings|)
  {
    if list == [] then (s, [])
    else
      var (s1, kept) := TickList(e, s, list[..|list| - 1], now);
      var p := list[|list| - 1];
      (TickOne(e, s1, p, now), if Judge(e, s1, p, now).Keep? then kept + [p] else kept)
  }

  function SetPending(b: Buffer, pid: int, list: seq<nat>): (b': Buffer)
    requires BufferOk(b) && InRange(list, |b.pendings|)
    ensures BufferOk(b')
  {
    b.(pendingByPID := if list == [] then b.pendingByPID - {pid} else b.pendingByPID[pid := list])
  }

  /** `order` lists every key exactly once: one possible order of iterating over a Go map. */
  ghost predicate IsOrder(order: seq<int>, keys: set<int>) {
    && (forall x :: x in order <==> x in keys)
    && (forall a, b | 0 <= a < b < |order| :: order[a] != order[b])
  }

  function TickPids(e: Env, s: State, order: seq<int>, now: Time): (s': State)
    requires WF(s)
    ensures WF(s') && |s'.buffer.pendings| == |s.buffer.pendings|
  {
    if order == [] then s
    else
      var s1 := TickPids(e, s, order[..|order| - 1], now);
      var pid := order[|order| - 1];
      var (s2, kept) := TickList(e, s1, ListOf(s1.buffer.pendingByPID, pid), now);
      s2.(buffer := SetPending(s2.buffer, pid, kept))
  }

  // ---------------------------------------------------------------------------------------------
  // Eviction

  function Retention(e: Env): Time {
    Later(MIN_RETENTION, 3 * e.buffer)
  }

  predicate Evictable(img: Image, cutoff: Time) {
    img.end.Some? && img.end.value.at < cutoff
  }

  function Retained(arena: seq<Image>, list: seq<nat>, cutoff: Time): (kept: seq<nat>)
    requires InRange(list, |arena|)
    ensures InRange(kept, |arena|)
  {
    if list == [] then []
    else
      var i := list[|list| - 1];
      var kept := Retained(arena, list[..|list| - 1], cutoff);
      if Evictable(arena[i], cutoff) then kept else kept + [i]
  }

  /** The stored denial routed by k points at an image that eviction releases. */
  predicate Released(arena: seq<Image>, x: Index, t: Routes, k: DenialKey, cutoff: Time)
    requires IndexOk(x, |arena|) && k in t.lastStored && t.lastStored[k].img < |arena|
  {
    var i := t.lastStored[k].img;
    && Evictable(arena[i], cutoff)
    && k in arena[i].denialKeys
    && exists pid | pid in x.byPID :: i in x.byPID[pid]
  }

  function EvictIndex(arena: seq<Image>, x: Index, cutoff: Time): (x': Index)
    requires IndexOk(x, |arena|)
    ensures IndexOk(x', |arena|)
  {
    Index(map tok | tok in x.images && !Evictable(arena[x.images[tok]], cutoff) :: x.images[tok],
          map pid | pid in x.byPID && Retained(arena, x.byPID[pid], cutoff) != [] :: Retained(arena, x.byPID[pid], cutoff))
  }

  function EvictRoutes(arena: seq<Image>, x: Index, t: Routes, cutoff: Time): (t': Routes)
    requires IndexOk(x, |arena|) && forall k | k in t.lastStored :: t.lastStored[k].img < |arena|
    ensures forall k | k in t'.lastStored :: k in t.lastStored && t'.lastStored[k] == t.lastStored[k]
  {
    t.(lastStored := map k | k in t.lastStored && !Released(arena, x, t, k, cutoff) :: t.lastStored[k])
  }

  function Evict(e: Env, s: State, now: Time): (s': State)
    requires WF(s)
    ensures WF(s')
  {
    var cutoff := now - Retention(e);
    s.(index := EvictIndex(s.graph.arena, s.index, cutoff),
       routes := EvictRoutes(s.graph.arena, s.index, s.routes, cutoff))
  }

  function Tick(e: Env, s: State, now: Time, order: seq<int>): (s': State)
    requires WF(s)
    ensures WF(s')
  {
    Evict(e, TickPids(e, s, order, now), now)
  }

  // ---------------------------------------------------------------------------------------------
  // Shutdown

  function FinalizeList(e: Env, s: State, list: seq<nat>): (s': State)
    requires WF(s) && InRange(list, |s.buffer.pendings|)
    ensures WF(s') && SameBuffered(s, s')
  {
    if list == [] then s
    else Finalize(e, FinalizeList(e, s, list[..|list| - 1]), list[|list| - 1], true)
  }

  function FinalizePids(e: Env, s: State, order: seq<int>): (s': State)
    requires WF(s)
    ensures WF(s')
  {
    if order == [] then s
    else
      var s1 := FinalizePids(e, s, order[..|order| - 1]);
      var pid := order[|order| - 1];
      var s2 := FinalizeList(e, s1, ListOf(s1.buffer.pendingByPID, pid));
      s2.(buffer := s2.buffer.(pendingByPID := s2.buffer.pendingByPID - {pid}))
  }

  /** The process rows of live images. */
  function LiveRows(g: Graph): set<nat> {
    set r, i | 0 <= r < |g.runs| && i in g.runs[r].live && i < |g.arena| :: g.arena[i].rowID
  }

  /** Ends every live image and every open run with an unknown end time. */
  function CloseRuns(g: Graph): (g': Graph)
    requires GraphOk(g)
    ensures GraphOk(g')
  {
    g.(runs := seq(|g.runs|, r requires 0 <= r < |g.runs| => g.runs[r].(live := {}, ended := true)),
       db := g.db.(
         runs := seq(|g.runs|, r requires 0 <= r < |g.runs| =>
           if g.runs[r].ended then g.db.runs[r] else EndedRun(g.db.runs[r], None, WatchStopped)),
         processes := seq(|g.db.processes|, p requires 0 <= p < |g.db.processes| =>
           if p in LiveRows(g) then EndedProcess(g.db.processes[p], None, ByWatchStopped, None) else g.db.processes[p])))
  }

  function ShutDown(e: Env, s: State, order: seq<int>): (s': State)
    requires WF(s)
    ensures WF(s')
  {
    var s1 := FinalizePids(e, s, order);
    s1.(graph := CloseRuns(s1.graph))
  }
}
