/** The correlator itself: fields that its methods change in place. Every method is proved to have
  the effect of the corresponding function of Model or Handlers on the state as a value. */
module Correlators {
  import opened Events
  import opened Tables
  import opened Model
  import opened Sinks
  import H = Handlers
  import M = Model
  import Inv = Invariant
  import Sbx = SandboxArgs
  import T = Traversal
  import BI = BufferInvariants
  import GI = GraphInvariants
  import B = Behaviour

  class Correlator {
    const env: Env
    const sink: Sink

    var watermark: Time

    // Records that the program allocates one by one.
    var arena: seq<Image>
    var runs: seq<Run>
    var pendings: seq<Pending>

    var images: map<Token, nat>
    var byPID: map<int, seq<nat>>
    var seen: map<int, SeenInfo>
    var adopted: map<string, nat>
    var pendingByPID: map<int, seq<nat>>
    var lastPending: map<DenialKey, nat>
    var lastStored: map<DenialKey, StoredDenial>
    var lastOrphan: map<DenialKey, nat>
    var orphanKeys: map<int, seq<DenialKey>>
    var entCache: map<string, bool>

    /** The state as a value. */
    ghost function St(): State
      reads this, sink
    {
      State(
        watermark,
        Gr(),
        Index(images, byPID),
        Buffer(pendings, pendingByPID, lastPending),
        Routes(seen, lastStored, lastOrphan, orphanKeys),
        Caches(adopted, entCache))
    }

    ghost function Gr(): Graph
      reads this, sink
    {
      Graph(arena, runs, sink.Rows())
    }

    constructor (env: Env)
      ensures St() == INITIAL && fresh(sink) && this.env == env
    {
      this.env := env;
      sink := new Sink();
      watermark := ZERO_TIME;
      arena, runs, pendings := [], [], [];
      images, byPID, seen, adopted := map[], map[], map[], map[];
      pendingByPID, lastPending := map[], map[];
      lastStored, lastOrphan, orphanKeys, entCache := map[], map[], map[], map[];
    }

    // -------------------------------------------------------------------------------------------
    // Images

    method Register(img: Image) returns (i: nat)
      requires WF(St()) && FreshImage(img, |arena|)
      modifies `arena, `images, `byPID
      ensures St() == M.Register(old(St()), img) && i == |old(arena)|
    {
      i := |arena|;
      arena := arena + [img];
      if !img.noToken {
        images := images[img.proc.token := i];
      }
      var pid := img.proc.token.pid;
      byPID := byPID[pid := InsertByStart(arena, ListOf(byPID, pid), i)];
    }

    method ImageFor(p: Proc) returns (i: nat)
      requires WF(St())
      modifies `arena, `images, `byPID
      ensures St() == M.ImageFor(old(St()), p)
      ensures p.token in images && i == images[p.token]
    {
      if p.token in images {
        i := images[p.token];
      } else {
        i := Register(Untracked(p));
      }
    }

    method MarkSeen(p: Proc)
      modifies `seen, `lastOrphan, `orphanKeys
      ensures St().routes == M.MarkSeen(old(St()).routes, p)
    {
      var pid := p.token.pid;
      if pid in seen && seen[pid].pidversion != p.token.pidversion {
        var keys := ListOf(orphanKeys, pid);
        var n := 0;
        while n < |keys|
          invariant n <= |keys|
          invariant lastOrphan == old(lastOrphan) - (set k | k in keys[..n])
          modifies `lastOrphan
        {
          assert keys[..n + 1] == keys[..n] + [keys[n]];
          lastOrphan := lastOrphan - {keys[n]};
          n := n + 1;
        }
        assert keys[..n] == keys;
        orphanKeys := orphanKeys - {pid};
      }
      seen := seen[pid := SeenInfo(p.path, p.token.pidversion)];
    }

    method IsCurrent(i: nat) returns (current: bool)
      requires WF(St()) && i < |arena|
      ensures current == M.IsCurrent(arena, St().index, i)
    {
      var list := ListOf(byPID, arena[i].proc.token.pid);
      if |list| == 0 {
        return false;
      }
      var cur: Option<nat> := Some(list[|list| - 1]);
      while cur.Some?
        invariant cur.Some? ==> cur.value < |arena|
        invariant OnExecChain(arena, Some(list[|list| - 1]), i) == OnExecChain(arena, cur, i)
        decreases if cur.Some? then cur.value + 1 else 0
      {
        if cur.value == i {
          return true;
        }
        cur := arena[cur.value].prev;
      }
      return false;
    }

    method Resolve(pid: int, t: Time) returns (i: Option<nat>)
      requires WF(St())
      ensures i == M.Resolve(St(), pid, t)
    {
      var list := ListOf(byPID, pid);
      var n: nat := |list|;
      assert list[..n] == list;
      while n > 0
        invariant n <= |list|
        invariant ResolveIn(arena, list, t) == ResolveIn(arena, list[..n], t)
      {
        n := n - 1;
        assert list[..n + 1][..n] == list[..n];
        var img := arena[list[n]];
        if img.start <= t + TIME_SLACK {
          if img.end.Some? && img.end.value.at < t - TIME_SLACK {
            return None;
          }
          return Some(list[n]);
        }
      }
      return None;
    }

    // -------------------------------------------------------------------------------------------
    // Runs

    method Join(i: nat, r: nat)
      requires WF(St()) && i < |arena| && r < |runs|
      modifies `arena, `runs, sink`processes
      ensures St() == old(St()).(graph := M.Join(old(Gr()), i, r))
    {
      var img := arena[i];
      if img.run.Some? {
        return;
      }
      var id := sink.InsertProcess(NewProcessRow(arena, img, r));
      arena := arena[i := img.(run := Some(r), rowID := id)];
      var run := runs[r];
      if img.end.None? {
        runs := runs[r := run.(live := run.live + {i})];
        return;
      }
      var end := img.end.value;
      sink.EndProcess(id, Some(end.at), end.reason, end.exitStatus);
      runs := runs[r := run.(lastEnd := Later(run.lastEnd, end.at))];
    }

    method MaybeEndRun(r: nat)
      requires WF(St()) && r < |runs|
      modifies `runs, sink`runs
      ensures St() == old(St()).(graph := M.MaybeEndRun(old(Gr()), r))
    {
      var run := runs[r];
      if run.ended || run.kind == Adopted || |run.live| > 0 {
        return;
      }
      runs := runs[r := run.(ended := true)];
      sink.EndRun(r, Some(run.lastEnd), Exited);
    }

    method EndImage(i: nat, end: End)
      requires WF(St()) && i < |arena|
      modifies `arena, `runs, sink`processes, sink`runs
      ensures St() == old(St()).(graph := M.EndImage(old(Gr()), i, end))
    {
      var img := arena[i];
      if img.end.Some? {
        return;
      }
      arena := arena[i := img.(end := Some(end))];
      if img.run.None? {
        return;
      }
      var r := img.run.value;
      sink.EndProcess(img.rowID, Some(end.at), end.reason, end.exitStatus);
      runs := runs[r := runs[r].(live := runs[r].live - {i}, lastEnd := Later(runs[r].lastEnd, end.at))];
      assert Gr() == EndMember(old(Gr()), i, end);
      MaybeEndRun(r);
    }

    /** Creates a run and its row. */
    method NewRun(row: RunRow, hasSession: bool) returns (r: nat)
      requires WF(St())
      modifies `runs, sink`runs
      ensures St() == old(St()).(graph := AddRun(old(Gr()), row, hasSession)) && r == |old(runs)|
    {
      r := |runs|;
      var id := sink.InsertRun(row);
      runs := runs + [Run(id, row.kind, {}, ZERO_TIME, hasSession, false)];
    }

    /** What is known of the profile; a profile file is read, relative to the working directory. */
    method CaptureProfile(spec: Sbx.ProfileSpec, cwd: string) returns (profile: Profile)
      ensures profile == H.CaptureProfile(env, spec, cwd)
    {
      profile := Profile(H.SourceName(spec.source), "", "", "", spec.err);
      match spec.source {
        case Inline => profile := profile.(text := spec.inline);
        case Named => profile := profile.(name := spec.name);
        case Unknown =>
        case File =>
          var path := spec.file;
          if (path == "" || path[0] != '/') && cwd != "" {
            path := env.joinPath(cwd, path);
          }
          match env.readFile(path) {
            case Text(text) => profile := profile.(path := path, text := text);
            case ReadError(message) => profile := profile.(path := path, error := "read profile: " + message);
          }
      }
    }

    method StartSandboxExecRun(ev: Event, parent: Option<nat>) returns (r: nat)
      requires WF(St())
      modifies `runs, sink`runs, sink`sessions
      ensures St() == old(St()).(graph := H.StartSandboxExecRun(env, old(Gr()), ev, parent)) && r == |old(runs)|
    {
      var spec := Sbx.ParseArgs(ev.args);
      var profile := CaptureProfile(spec, ev.cwd);
      var row := RunRow(SandboxExec, parent, None, "", "", ev.time, false, profile, spec.params, spec.extra, spec.command,
                        ev.cwd, env.pickEnv(ev.env), Status.Running, None, 0);
      assert row == H.SandboxExecRow(env, ev, parent);
      var m := env.detectRun(row.profile.text, ev.args, row.env);
      if m.Some? {
        var sid := sink.EnsureSession(m.value.kind, m.value.key, ev.time);
        row := row.(session := Some(sid), tag := m.value.raw, tagCommand := m.value.detail);
      }
      r := NewRun(row, m.Some?);
    }

    // -------------------------------------------------------------------------------------------
    // Process events

    method HandleES(ev: Event)
      requires WF(St())
      modifies this, sink
      ensures St() == H.HandleES(env, old(St()), ev)
    {
      if ev.time > watermark {
        watermark := ev.time;
      }
      match ev.kind
      case Fork => HandleFork(ev);
      case Exec => HandleExec(ev);
      case Exit => HandleExit(ev);
      case OtherKind =>
    }

    method HandleFork(ev: Event)
      requires WF(St())
      modifies this, sink
      ensures St() == H.HandleFork(old(St()), ev)
    {
      var parent := ImageFor(ev.process);
      MarkSeen(ev.process);
      MarkSeen(ev.target);
      assert St() == H.SeeBoth(old(St()), ev);
      if ev.target.token in images {
        return;
      }
      var img := arena[parent];
      var child := Register(H.Forked(ev, parent, img.args, img.cwd));
      if img.run.Some? {
        Join(child, img.run.value);
      }
    }

    method HandleExec(ev: Event)
      requires WF(St())
      modifies this, sink
      ensures St() == H.HandleExec(env, old(St()), ev)
    {
      var actor := ImageFor(ev.process);
      MarkSeen(ev.process);
      MarkSeen(ev.target);
      assert St() == H.SeeBoth(old(St()), ev);
      if ev.target.token in images {
        return;
      }
      var img := Register(H.Execed(ev, actor, arena[actor].parent));
      FinishExec(ev, img, actor);
    }

    method FinishExec(ev: Event, img: nat, actor: nat)
      requires WF(St()) && img < |arena| && actor < |arena|
      modifies `arena, `runs, sink`processes, sink`runs, sink`sessions
      ensures St() == old(St()).(graph := H.FinishExec(env, old(Gr()), ev, img, actor))
    {
      var actorRun := arena[actor].run;
      if ev.target.path == SANDBOX_EXEC_PATH {
        var r := StartSandboxExecRun(ev, actorRun);
        Join(img, r);
      } else if actorRun.Some? {
        Join(img, actorRun.value);
      }
      EndImage(actor, End(ev.time, ByExec, None));
    }

    method HandleExit(ev: Event)
      requires WF(St())
      modifies this, sink
      ensures St() == H.HandleExit(old(St()), ev)
    {
      if ev.process.token in images {
        EndImage(images[ev.process.token], End(ev.time, ByExit, Some(ev.exitStatus)));
      }
    }

    // -------------------------------------------------------------------------------------------
    // Denials

    method HandleDenial(d: Denial, now: Time)
      requires WF(St())
      modifies this, sink
      ensures St() == H.HandleDenial(env, old(St()), d, now)
    {
      var count := d.denyN;
      if d.duplicate > 0 {
        var counted := CountRepeat(d, now);
        if counted {
          return;
        }
        count := d.duplicate;
      }
      if count < 1 {
        count := 1;
      }
      Take(d, count, now);
    }

    /** Adds a repeat report to what it repeats: a buffered denial, a denial row or an orphan row. */
    method CountRepeat(d: Denial, ghost now: Time) returns (counted: bool)
      requires WF(St()) && d.duplicate > 0
      modifies `pendings, sink`denials, sink`orphans
      ensures counted <==> !H.RouteOf(old(St()), d).NoRow?
      ensures counted ==> St() == H.HandleDenial(env, old(St()), d, now)
      ensures !counted ==> St() == old(St())
    {
      var key := KeyOf(d);
      if key in lastPending {
        AddPendingCount(lastPending[key], d.duplicate);
        return true;
      }
      if key in lastStored {
        var current := IsCurrent(lastStored[key].img);
        if current {
          sink.AddDenialCount(lastStored[key].id, d.duplicate);
          return true;
        }
      }
      if key in lastOrphan {
        sink.AddOrphanCount(lastOrphan[key], d.duplicate);
        return true;
      }
      return false;
    }

    method AddPendingCount(p: nat, n: int)
      requires WF(St()) && p < |pendings|
      modifies `pendings
      ensures St() == old(St()).(buffer := H.AddPendingCount(old(St()).buffer, p, n))
    {
      pendings := pendings[p := pendings[p].(count := pendings[p].count + n)];
    }

    /** Attributes a denial that repeats no known one, or buffers it. */
    method Take(d: Denial, count: int, now: Time)
      requires WF(St()) && count == Weight(d)
      modifies this, sink
      ensures St() == H.TakeDenial(env, old(St()), d, now)
    {
      var p := |pendings|;
      pendings := pendings + [Pending(d, count, now, Buffered)];
      assert St() == old(St()).(buffer := H.NewPending(old(St()).buffer, d, now));
      if watermark > d.time + TIME_SLACK {
        var i := Resolve(d.pid, d.time);
        if i.Some? && arena[i.value].run.Some? {
          Attribute(p, i.value);
          return;
        }
      }
      Enqueue(p);
    }

    method Enqueue(p: nat)
      requires WF(St()) && p < |pendings|
      modifies `pendingByPID, `lastPending
      ensures St() == old(St()).(buffer := H.Enqueue(old(St()).buffer, p))
    {
      var d := pendings[p].d;
      pendingByPID := pendingByPID[d.pid := ListOf(pendingByPID, d.pid) + [p]];
      lastPending := lastPending[KeyOf(d) := p];
    }

    method Attribute(p: nat, i: nat)
      requires WF(St()) && p < |pendings| && i < |arena| && arena[i].run.Some?
      modifies `arena, `runs, `pendings, `lastPending, `lastStored, sink`denials, sink`runs, sink`sessions
      ensures St() == H.Attribute(env, old(St()), p, i)
    {
      var r := arena[i].run.value;
      var d := pendings[p].d;
      StoreDenial(p, i);
      ForgetPending(p);
      if !runs[r].hasSession {
        AttachSession(r, d);
      }
    }

    /** Writes the denial row and remembers it for repeats. */
    method StoreDenial(p: nat, i: nat)
      requires WF(St()) && p < |pendings| && i < |arena| && arena[i].run.Some?
      modifies `arena, `pendings, `lastStored, sink`denials
      ensures St() == H.StoreDenial(old(St()), p, i)
    {
      var d := pendings[p].d;
      var id := sink.InsertDenial(H.NewDenialRow(d, pendings[p].count, arena[i].run.value, arena[i].rowID));
      var key := KeyOf(d);
      if key !in lastStored || lastStored[key].img != i {
        arena := arena[i := arena[i].(denialKeys := arena[i].denialKeys + [key])];
      }
      lastStored := lastStored[key := StoredDenial(id, i)];
      pendings := pendings[p := pendings[p].(fate := Stored(id))];
    }

    method AttachSession(r: nat, d: Denial)
      requires WF(St()) && r < |runs| && !runs[r].hasSession
      modifies `runs, sink`runs, sink`sessions
      ensures St() == old(St()).(graph := H.AttachSession(env, old(Gr()), r, d))
    {
      var m := H.Detect(env, d.message);
      if m.Some? {
        var sid := sink.EnsureSession(m.value.kind, m.value.key, d.time);
        sink.SetRunSession(r, sid, m.value.raw, m.value.detail);
        runs := runs[r := runs[r].(hasSession := true)];
      }
    }

    method ForgetPending(p: nat)
      requires WF(St()) && p < |pendings|
      modifies `lastPending
      ensures St() == old(St()).(buffer := H.ForgetPending(old(St()).buffer, p))
    {
      var key := KeyOf(pendings[p].d);
      if key in lastPending && lastPending[key] == p {
        lastPending := lastPending - {key};
      }
    }

    // -------------------------------------------------------------------------------------------
    // Decisions

    method Adopt(m: Match, d: Denial) returns (r: nat)
      requires WF(St())
      modifies `runs, `adopted, sink`runs, sink`sessions
      ensures St() == H.Adopt(old(St()), m, d) && r == adopted[H.AdoptionKey(m)]
    {
      var key := H.AdoptionKey(m);
      if key in adopted {
        return adopted[key];
      }
      var sid := sink.EnsureSession(m.kind, m.key, d.time);
      r := NewRun(H.AdoptedRow(m, d, sid), true);
      adopted := adopted[key := r];
    }

    method Eligible(i: nat) returns (ok: bool)
      requires WF(St()) && i < |arena|
      ensures ok == H.Eligible(arena, i)
    {
      var cur: nat := i;
      while true
        invariant cur < |arena| && H.Eligible(arena, i) == H.Eligible(arena, cur)
        decreases cur
      {
        var img := arena[cur];
        if img.noToken || img.proc.isPlatform {
          return false;
        }
        if img.execSeen {
          return true;
        }
        if img.parent.None? || arena[img.parent.value].proc.path != img.proc.path {
          return false;
        }
        cur := img.parent.value;
      }
    }

    /** The fork chain of an eligible image, from the image up to its exec'd root. */
    method ForkChain(i: nat) returns (path: seq<nat>)
      requires WF(St()) && i < |arena| && H.Eligible(arena, i)
      ensures path != [] && InRange(path, |arena|) && path[|path| - 1] == H.RootOf(arena, i)
      ensures |path| == |H.PathTo(arena, i)| && forall k | 0 <= k < |path| :: path[k] == H.PathTo(arena, i)[|path| - 1 - k]
    {
      var root: nat := i;
      path := [root];
      while !arena[root].execSeen
        invariant ChainTo(arena, i, root, path)
        decreases root
      {
        ChainNext(arena, i, root, path);
        root := arena[root].parent.value;
        path := path + [root];
      }
    }

    /** Asks the entitlement checker, at most once per code directory hash. */
    method AppSandboxed(root: Proc) returns (yes: bool)
      requires env.entitlements.Some?
      modifies `entCache
      ensures yes == H.AppSandboxed(env, old(St()).caches, root)
      ensures entCache == old(entCache)[H.EntitlementKey(root) := yes]
    {
      var key := H.EntitlementKey(root);
      if key !in entCache {
        var checked := (env.entitlements.value)(root.path, root.cdhash);
        entCache := entCache[key := checked == Some(true)];
      }
      yes := entCache[key];
    }

    method CandidateRun(i: nat) returns (r: Option<nat>)
      requires WF(St()) && i < |arena| && env.entitlements.Some?
      modifies `arena, `runs, `entCache, sink`processes, sink`runs
      ensures r.Some? <==> H.IsCandidate(env, old(St()), i)
      ensures
        var s := old(St()).(caches := H.CheckedEntitlement(env, old(St()), i));
        St() == if r.Some? then s.(graph := H.JoinCandidate(old(Gr()), i)) else s
    {
      var ok := Eligible(i);
      if !ok {
        return None;
      }
      var path := ForkChain(i);
      var root := path[|path| - 1];
      var k: nat;
      if arena[root].run.Some? {
        k := arena[root].run.value;
      } else {
        var appSandboxed := AppSandboxed(arena[root].proc);
        if appSandboxed {
          return None;
        }
        k := NewRun(H.SandboxInitRow(arena[root]), false);
      }
      JoinPath(path, H.PathTo(arena, i), k);
      return Some(k);
    }

    /** Joins a fork chain from its root down, and ends the run if nobody in it runs. */
    method JoinPath(path: seq<nat>, ghost order: seq<nat>, r: nat)
      requires WF(St()) && InRange(path, |arena|) && InRange(order, |arena|) && r < |runs|
      requires |order| == |path| && forall k | 0 <= k < |path| :: path[k] == order[|path| - 1 - k]
      modifies `arena, `runs, sink`processes, sink`runs
      ensures St() == old(St()).(graph := M.MaybeEndRun(H.JoinAll(old(Gr()), order, r), r))
    {
      JoinChain(path, order, r);
      MaybeEndRun(r);
    }

    method JoinChain(path: seq<nat>, ghost order: seq<nat>, r: nat)
      requires WF(St()) && InRange(path, |arena|) && InRange(order, |arena|) && r < |runs|
      requires |order| == |path| && forall k | 0 <= k < |path| :: path[k] == order[|path| - 1 - k]
      modifies `arena, `runs, sink`processes
      ensures St() == old(St()).(graph := H.JoinAll(old(Gr()), order, r))
    {
      ghost var s := St();
      ghost var front: seq<nat> := [];
      var n: nat := |path|;
      while n > 0
        invariant n <= |path| && |front| == |path| - n && forall k | 0 <= k < |front| :: front[k] == order[k]
        invariant JoinedTo(s, front, r, St())
      {
        n := n - 1;
        JoinNext(s, front, r, path[n]);
        front := front + [path[n]];
      }
      assert front == order;
    }

    /** The next image of a chain that is joined from its root down. */
    method JoinNext(ghost s: State, ghost front: seq<nat>, r: nat, i: nat)
      requires JoinedTo(s, front, r, St()) && i < |arena|
      modifies `arena, `runs, sink`processes
      ensures JoinedTo(s, front + [i], r, St())
    {
      JoinAllNext(s.graph, front, i, r);
      Join(i, r);
    }

    method StoreOrphan(p: nat)
      requires WF(St()) && p < |pendings|
      modifies `pendings, `lastOrphan, `orphanKeys, sink`orphans
      ensures St() == H.StoreOrphan(old(St()), p)
    {
      var d := pendings[p].d;
      if d.pid in seen {
        var id := sink.InsertOrphan(H.OrphanRowOf(pendings[p], seen[d.pid]));
        var key := KeyOf(d);
        if key !in lastOrphan {
          orphanKeys := orphanKeys[d.pid := ListOf(orphanKeys, d.pid) + [key]];
        }
        lastOrphan := lastOrphan[key := id];
        pendings := pendings[p := pendings[p].(fate := Orphaned(id))];
      } else {
        pendings := pendings[p := pendings[p].(fate := Dropped)];
      }
    }

    method Finalize(p: nat, classify: bool)
      requires WF(St()) && p < |pendings|
      modifies this, sink
      ensures St() == H.Finalize(env, old(St()), p, classify)
    {
      ForgetPending(p);
      var d := pendings[p].d;
      var i := Resolve(d.pid, d.time);
      if i.Some? && arena[i.value].run.Some? {
        Attribute(p, i.value);
        return;
      }
      var m := H.Detect(env, d.message);
      if m.Some? && classify {
        AdoptDenial(p, i, m.value);
        return;
      }
      if i.Some? && classify && env.entitlements.Some? {
        ghost var s := St();
        var r := CandidateRun(i.value);
        if r.Some? {
          Attribute(p, i.value);
          return;
        }
      }
      StoreOrphan(p);
    }

    method AdoptDenial(p: nat, i: Option<nat>, m: Match)
      requires WF(St()) && p < |pendings| && (i.Some? ==> i.value < |arena|)
      modifies this, sink
      ensures St() == H.AdoptDenial(env, old(St()), p, i, m)
    {
      var d := pendings[p].d;
      var r := Adopt(m, d);
      var k: nat;
      if i.Some? {
        k := i.value;
      } else {
        k := Register(H.Stub(d.pid));
      }
      Join(k, r);
      Attribute(p, k);
    }

    // -------------------------------------------------------------------------------------------
    // Eviction

    /** Drops the images that ended before the cutoff from `images`. */
    method EvictImages(cutoff: Time, ghost x: Index)
      requires IndexOk(x, |arena|) && images == x.images
      modifies `images
      ensures images == H.EvictIndex(arena, x, cutoff).images
    {
      var todo := images.Keys;
      while todo != {}
        invariant images == map tok | tok in old(images) && (tok in todo || !H.Evictable(arena[old(images)[tok]], cutoff)) :: old(images)[tok]
        decreases todo
      {
        var tok :| tok in todo;
        if tok in images && H.Evictable(arena[images[tok]], cutoff) {
          images := images - {tok};
        }
        todo := todo - {tok};
      }
    }

    /** Forgets the routes to image i. */
    method ReleaseKeys(i: nat)
      requires i < |arena|
      modifies `lastStored
      ensures lastStored == map k | k in old(lastStored) && !RoutesTo(arena, old(lastStored), k, i) :: old(lastStored)[k]
    {
      var keys := arena[i].denialKeys;
      var n: nat := 0;
      while n < |keys|
        invariant n <= |keys|
        invariant lastStored == map k | k in old(lastStored) && !(old(lastStored)[k].img == i && k in keys[..n]) :: old(lastStored)[k]
      {
        assert keys[..n + 1] == keys[..n] + [keys[n]];
        if keys[n] in lastStored && lastStored[keys[n]].img == i {
          lastStored := lastStored - {keys[n]};
        }
        n := n + 1;
      }
      assert keys[..n] == keys;
    }

    predicate ListsOk()
      reads this
    {
      forall pid | pid in byPID :: InRange(byPID[pid], |arena|)
    }

    /** Evicts the images of one pid. The kept ones are compacted to the front of the same list. */
    method EvictPid(pid: int, cutoff: Time)
      requires ListsOk() && pid in byPID
      modifies `byPID, `lastStored
      ensures
        var kept := H.Retained(arena, old(byPID)[pid], cutoff);
        byPID == if kept == [] then old(byPID) - {pid} else old(byPID)[pid := kept]
      ensures lastStored == KeptRoutes(arena, old(lastStored), old(byPID)[pid], cutoff)
    {
      var list0 := byPID[pid];
      var list := list0;
      var n: nat, w: nat := 0, 0;
      ghost var front: seq<nat> := [];
      while n < |list|
        invariant Compacted(list, list0, n, w, front)
        invariant EvictedTo(arena, old(lastStored), list0, n, cutoff, front, lastStored)
        modifies `lastStored
      {
        var i := list[n];
        EvictNext(arena, old(lastStored), list0, n, cutoff, front, lastStored);
        if arena[i].end.None? || arena[i].end.value.at >= cutoff {
          KeepsFront(list, list0, n, w, front);
          list := list[w := i];
          w := w + 1;
          front := front + [i];
        } else {
          ReleaseKeys(i);
        }
        n := n + 1;
      }
      assert list0[..n] == list0;
      if w == 0 {
        byPID := byPID - {pid};
      } else {
        byPID := byPID[pid := list[..w]];
      }
    }

    method Evict(now: Time)
      requires WF(St())
      modifies `images, `byPID, `lastStored
      ensures St() == H.Evict(env, old(St()), now)
    {
      var retention := MIN_RETENTION;
      if 3 * env.buffer > retention {
        retention := 3 * env.buffer;
      }
      EvictBefore(now - retention, St().index, St().routes);
    }

    method EvictBefore(cutoff: Time, ghost x: Index, ghost t: Routes)
      requires IndexOk(x, |arena|) && RoutesOk(t, |arena|, |sink.denials|, |sink.orphans|)
      requires Index(images, byPID) == x && lastStored == t.lastStored
      modifies `images, `byPID, `lastStored
      ensures Index(images, byPID) == H.EvictIndex(arena, x, cutoff)
      ensures lastStored == H.EvictRoutes(arena, x, t, cutoff).lastStored
    {
      EvictImages(cutoff, x);
      EvictLists(cutoff, x, t);
    }

    /** Evicts from every pid's list, whatever was dropped from `images` before. */
    method EvictLists(cutoff: Time, ghost x: Index, ghost t: Routes)
      requires IndexOk(x, |arena|) && RoutesOk(t, |arena|, |sink.denials|, |sink.orphans|)
      requires byPID == x.byPID && lastStored == t.lastStored
      modifies `byPID, `lastStored
      ensures byPID == H.EvictIndex(arena, x, cutoff).byPID
      ensures lastStored == H.EvictRoutes(arena, x, t, cutoff).lastStored
    {
      EvictPids(cutoff);
      AllVisited(arena, x, t, cutoff);
    }

    method EvictPids(cutoff: Time)
      requires ListsOk()
      modifies `byPID, `lastStored
      ensures byPID == Visited(arena, old(byPID), old(byPID).Keys, cutoff)
      ensures lastStored == RoutesLeft(arena, old(lastStored), old(byPID), old(byPID).Keys, cutoff)
    {
      ghost var lists, stored := byPID, lastStored;
      ghost var done: set<int> := {};
      var todo := byPID.Keys;
      while todo != {}
        invariant ListsOk() && done + todo == lists.Keys && done !! todo
        invariant byPID == Visited(arena, lists, done, cutoff)
        invariant lastStored == RoutesLeft(arena, stored, lists, done, cutoff)
        decreases todo
      {
        ghost var next := Pick(todo);
        var pid :| pid in todo;
        EvictPid(pid, cutoff);
        VisitNext(arena, lists, done, pid, cutoff);
        RoutesNext(arena, stored, lists, done, pid, cutoff);
        todo := todo - {pid};
        done := done + {pid};
      }
    }

    // -------------------------------------------------------------------------------------------
    // Ticks

    method SetPending(pid: int, list: seq<nat>)
      requires WF(St()) && InRange(list, |pendings|)
      modifies `pendingByPID
      ensures St() == old(St()).(buffer := H.SetPending(old(St()).buffer, pid, list))
    {
      if |list| == 0 {
        pendingByPID := pendingByPID - {pid};
      } else {
        pendingByPID := pendingByPID[pid := list];
      }
    }

    /** One buffered denial of pid: decides it, or keeps it. */
    method TickOne(pid: int, p: nat, now: Time) returns (keep: bool)
      requires WF(St()) && p < |pendings| && pendings[p].d.pid == pid
      modifies this, sink
      ensures St() == H.TickOne(env, old(St()), p, now) && keep == H.Judge(env, old(St()), p, now).Keep?
    {
      var d := pendings[p].d;
      var waited := now - pendings[p].arrived;
      var caught := watermark > d.time + TIME_SLACK;
      if caught && waited >= env.buffer {
        Finalize(p, true);
        return false;
      }
      if waited >= LAG_CAP_FACTOR * env.buffer {
        Finalize(p, false);
        return false;
      }
      if caught {
        var i := Resolve(pid, d.time);
        if i.None? || arena[i.value].run.None? {
          return true;
        }
        Attribute(p, i.value);
        return false;
      }
      return true;
    }

    /** The next denial of a list; R relates the number of visits, the state and what was kept. */
    method TickNext(pid: int, now: Time, list: seq<nat>, n: nat, ghost kept: seq<nat>, ghost R: (nat, State, seq<nat>) -> bool)
      returns (keep: bool)
      requires Visits(env, pid, list, now, R) && n < |list| && R(n, St(), kept)
      modifies this, sink
      ensures R(n + 1, St(), if keep then kept + [list[n]] else kept)
    {
      assert CanVisit(env, pid, list, now, R, n, St(), kept);
      keep := TickOne(pid, list[n], now);
    }

    /** Visits a list. The kept denials are compacted to the front of the same list. */
    method Compact(pid: int, now: Time, pending: seq<nat>, ghost R: (nat, State, seq<nat>) -> bool) returns (kept: seq<nat>)
      requires Visits(env, pid, pending, now, R) && R(0, St(), [])
      modifies this, sink
      ensures R(|pending|, St(), kept)
    {
      var list := pending;
      var n: nat, w: nat := 0, 0;
      ghost var front: seq<nat> := [];
      while n < |list|
        invariant Compacted(list, pending, n, w, front)
        invariant R(n, St(), front)
      {
        var p := list[n];
        var keep := TickNext(pid, now, pending, n, front, R);
        if keep {
          KeepsFront(list, pending, n, w, front);
          list := list[w := p];
          w := w + 1;
          front := front + [p];
        }
        n := n + 1;
      }
      return list[..w];
    }

    /** The buffered denials of one pid. */
    method TickList(pid: int, now: Time) returns (kept: seq<nat>)
      requires WF(St()) && pid in pendingByPID && AllOf(St().buffer, pid, pendingByPID[pid])
      modifies this, sink
      ensures (St(), kept) == H.TickList(env, old(St()), old(pendingByPID)[pid], now)
    {
      ghost var s, list := St(), pendingByPID[pid];
      TickedToVisits(env, s, pid, list, now);
      kept := Compact(pid, now, pendingByPID[pid], (n: nat, s1: State, kept: seq<nat>) => AllTicked(env, s, pid, list, n, now, s1, kept));
      assert list[..|list|] == list;
    }

    method TickPid(pid: int, now: Time)
      requires WF(St()) && pid in pendingByPID && AllOf(St().buffer, pid, pendingByPID[pid])
      modifies this, sink
      ensures
        var (s, kept) := H.TickList(env, old(St()), ListOf(old(pendingByPID), pid), now);
        St() == s.(buffer := H.SetPending(s.buffer, pid, kept))
    {
      var kept := TickList(pid, now);
      SetPending(pid, kept);
    }

    /** Visits every pid with buffered denials, in an arbitrary order. */
    method TickPids(now: Time) returns (ghost order: seq<int>)
      requires Inv.Inv(St())
      modifies this, sink
      ensures H.IsOrder(order, old(pendingByPID).Keys) && St() == H.TickPids(env, old(St()), order, now)
    {
      ghost var s0, keys := St(), pendingByPID.Keys;
      order := [];
      var todo := pendingByPID.Keys;
      assert keys - todo == {};
      while todo != {}
        invariant WF(St()) && St() == H.TickPids(env, s0, order, now)
        invariant todo <= pendingByPID.Keys <= keys && H.IsOrder(order, keys - todo)
        decreases todo
      {
        ghost var next := Pick(todo);
        var pid :| pid in todo;
        OrderNext(order, keys, todo, pid);
        VisitedLists(env, s0, order, now, pid);
        TickPid(pid, now);
        T.TickPidsSnoc(env, s0, order, pid, now);
        order := order + [pid];
        todo := todo - {pid};
      }
    }

    method Tick(now: Time) returns (ghost order: seq<int>)
      requires Inv.Inv(St())
      modifies this, sink
      ensures H.IsOrder(order, old(pendingByPID).Keys) && St() == H.Tick(env, old(St()), now, order)
    {
      order := TickPids(now);
      Evict(now);
    }

    /** R, a relation between the calls made and the state, follows the model. */
    method Handle(call: Call, ghost calls: seq<Call>, ghost R: (seq<Call>, State) -> bool)
      requires Follows(env, R) && R(calls, St())
      modifies this, sink
      ensures R(calls + [call], St())
    {
      ghost var s := St();
      FollowsFrom(env, R, calls, s);
      ghost var step := Perform(call);
      FollowsTo(env, R, calls, s, call, step, St());
    }

    /** One call has the effect of one step of the model. */
    method Perform(call: Call) returns (ghost step: B.Step)
      requires Inv.Inv(St())
      modifies this, sink
      ensures Does(env, old(St()), call, step, St())
    {
      ghost var s := St();
      match call
      case EventCall(ev) =>
        HandleES(ev);
        step := B.ProcessEvent(ev);
        EventDoes(env, s, ev, St());
      case DenialCall(d, now) =>
        HandleDenial(d, now);
        step := B.DenialLine(d, now);
        DenialDoes(env, s, d, now, St());
      case TickCall(now) =>
        ghost var order := Tick(now);
        step := B.TickAt(now, order);
        TickDoes(env, s, now, order, St());
    }

    method HandleAll(calls: seq<Call>, ghost R: (seq<Call>, State) -> bool)
      requires Follows(env, R) && R([], St())
      modifies this, sink
      ensures R(calls, St())
    {
      var n: nat := 0;
      while n < |calls|
        invariant n <= |calls| && R(calls[..n], St())
      {
        Handle(calls[n], calls[..n], R);
        assert calls[..n + 1] == calls[..n] + [calls[n]];
        n := n + 1;
      }
      assert calls[..n] == calls;
    }

    // -------------------------------------------------------------------------------------------
    // Shutdown

    method FinalizeList(list: seq<nat>)
      requires WF(St()) && InRange(list, |pendings|)
      modifies this, sink
      ensures St() == H.FinalizeList(env, old(St()), list)
    {
      ghost var s0 := St();
      var n: nat := 0;
      while n < |list|
        invariant n <= |list| && WF(St()) && |pendings| == |s0.buffer.pendings|
        invariant St() == H.FinalizeList(env, s0, list[..n])
      {
        assert list[..n + 1][..n] == list[..n];
        Finalize(list[n], true);
        n := n + 1;
      }
      assert list[..n] == list;
    }

    method FinalizePids() returns (ghost order: seq<int>)
      requires WF(St())
      modifies this, sink
      ensures H.IsOrder(order, old(pendingByPID).Keys) && St() == H.FinalizePids(env, old(St()), order)
    {
      ghost var s0, keys := St(), pendingByPID.Keys;
      order := [];
      var todo := pendingByPID.Keys;
      assert keys - todo == {};
      while todo != {}
        invariant WF(St()) && St() == H.FinalizePids(env, s0, order)
        invariant todo <= pendingByPID.Keys <= keys && H.IsOrder(order, keys - todo)
        decreases todo
      {
        ghost var next := Pick(todo);
        var pid :| pid in todo;
        OrderNext(order, keys, todo, pid);
        T.FinalizePidsSnoc(env, s0, order, pid);
        FinalizeList(pendingByPID[pid]);
        pendingByPID := pendingByPID - {pid};
        order := order + [pid];
        todo := todo - {pid};
      }
    }

    /** Ends the live members of run r, in an arbitrary order; `done` are those of earlier runs. */
    method CloseMembers(r: nat, ghost g: Graph, ghost done: set<nat>)
      requires arena == g.arena && r < |runs| == |g.runs| && runs[r].live == g.runs[r].live
      requires Closing(g, r, done) && sink.processes == ClosedRows(g, done)
      modifies `runs, sink`processes
      ensures runs == old(runs)[r := old(runs)[r].(live := {})]
      ensures sink.processes == ClosedRows(g, done + g.runs[r].live)
    {
      ghost var ended: set<nat> := {};
      assert done + ended == done;
      while runs[r].live != {}
        invariant |runs| == |g.runs| && runs == old(runs)[r := old(runs)[r].(live := runs[r].live)]
        invariant runs[r].live == g.runs[r].live - ended
        invariant ended <= g.runs[r].live && sink.processes == ClosedRows(g, done + ended)
        decreases runs[r].live
      {
        ghost var next := Pick(runs[r].live);
        var i :| i in runs[r].live;
        ClosesNext(g, done + ended, i);
        sink.EndProcess(arena[i].rowID, None, ByWatchStopped, None);
        assert done + (ended + {i}) == done + ended + {i};
        ended := ended + {i};
        runs := runs[r := runs[r].(live := runs[r].live - {i})];
      }
      assert ended == g.runs[r].live;
    }

    method CloseRuns()
      requires GI.GraphInv(Gr())
      modifies `runs, sink`processes, sink`runs
      ensures Gr() == H.CloseRuns(old(Gr()))
    {
      ghost var g := Gr();
      var r: nat := 0;
      assert LiveBelow(g, 0) == {};
      assert sink.processes == ClosedRows(g, {});
      while r < |runs|
        invariant ClosedTo(g, r, Gr())
      {
        CloseRun(g, r);
        r := r + 1;
      }
      AllClosed(g, Gr());
    }

    method CloseRun(ghost g: Graph, r: nat)
      requires GI.GraphInv(g) && ClosedTo(g, r, Gr()) && r < |runs|
      modifies `runs, sink`processes, sink`runs
      ensures ClosedTo(g, r + 1, Gr())
    {
      MembersClosing(g, r);
      CloseMembers(r, g, LiveBelow(g, r));
      if !runs[r].ended {
        runs := runs[r := runs[r].(ended := true)];
        sink.EndRun(r, None, WatchStopped);
      }
    }

    method Shutdown() returns (ghost order: seq<int>)
      requires Inv.Inv(St())
      modifies this, sink
      ensures H.IsOrder(order, old(pendingByPID).Keys) && St() == H.ShutDown(env, old(St()), order)
    {
      ghost var s := St();
      order := FinalizePids();
      FinalizedInv(env, s, order);
      CloseRuns();
    }
  }

  /** What the watcher hands to the correlator. */
  datatype Call = EventCall(ev: Event) | DenialCall(d: Denial, now: Time) | TickCall(now: Time)

  /** The step is this call, whatever order a tick visits the pids in. */
  predicate Makes(call: Call, step: B.Step) {
    match call
    case EventCall(ev) => step == B.ProcessEvent(ev)
    case DenialCall(d, now) => step == B.DenialLine(d, now)
    case TickCall(now) => step.TickAt? && step.now == now
  }

  /** The steps are these calls, one by one. */
  predicate MakesAll(calls: seq<Call>, steps: seq<B.Step>) {
    if calls == [] then steps == []
    else
      && |steps| == |calls|
      && Makes(calls[|calls| - 1], steps[|steps| - 1])
      && MakesAll(calls[..|calls| - 1], steps[..|steps| - 1])
  }

  /** The step is this call and leads from s to s'. */
  ghost predicate Does(e: Env, s: State, call: Call, step: B.Step, s': State) {
    WF(s) && Makes(call, step) && B.Possible(s, step) && s' == B.Apply(e, s, step)
  }

  predicate Holds(R: (seq<Call>, State) -> bool, calls: seq<Call>, s: State) {
    R(calls, s)
  }

  ghost predicate Follows(e: Env, R: (seq<Call>, State) -> bool) {
    && (forall calls, s {:trigger Holds(R, calls, s)} :: Holds(R, calls, s) ==> Inv.Inv(s))
    && (forall calls, call, s, step, s' {:trigger R(calls, s), Does(e, s, call, step, s')} ::
          R(calls, s) && Does(e, s, call, step, s') ==> R(calls + [call], s'))
  }

  lemma EventDoes(e: Env, s: State, ev: Event, s': State)
    requires WF(s) && s' == H.HandleES(e, s, ev)
    ensures Does(e, s, EventCall(ev), B.ProcessEvent(ev), s')
  {
  }

  lemma DenialDoes(e: Env, s: State, d: Denial, now: Time, s': State)
    requires WF(s) && s' == H.HandleDenial(e, s, d, now)
    ensures Does(e, s, DenialCall(d, now), B.DenialLine(d, now), s')
  {
  }

  lemma TickDoes(e: Env, s: State, now: Time, order: seq<int>, s': State)
    requires WF(s) && H.IsOrder(order, s.buffer.pendingByPID.Keys) && s' == H.Tick(e, s, now, order)
    ensures Does(e, s, TickCall(now), B.TickAt(now, order), s')
  {
  }

  lemma FollowsFrom(e: Env, R: (seq<Call>, State) -> bool, calls: seq<Call>, s: State)
    requires Follows(e, R) && R(calls, s)
    ensures Inv.Inv(s)
  {
    assert Holds(R, calls, s);
  }

  lemma FollowsTo(e: Env, R: (seq<Call>, State) -> bool, calls: seq<Call>, s: State, call: Call, step: B.Step, s': State)
    requires Follows(e, R) && R(calls, s) && Does(e, s, call, step, s')
    ensures R(calls + [call], s')
  {
  }

  /** Some run of the model that makes these calls leads to the state. */
  ghost predicate Reached(e: Env, calls: seq<Call>, s: State) {
    exists steps :: IsRunTo(e, calls, steps, s)
  }

  ghost predicate IsRunTo(e: Env, calls: seq<Call>, steps: seq<B.Step>, s: State) {
    MakesAll(calls, steps) && B.Feasible(e, steps) && s == B.After(e, steps)
  }

  lemma RunGoesOn(e: Env, calls: seq<Call>, steps: seq<B.Step>, s: State, call: Call, step: B.Step, s': State)
    requires IsRunTo(e, calls, steps, s) && Does(e, s, call, step, s')
    ensures IsRunTo(e, calls + [call], steps + [step], s')
  {
    assert (steps + [step])[..|steps|] == steps && (calls + [call])[..|calls|] == calls;
  }

  lemma ReachedFollows(e: Env)
    ensures Follows(e, (calls, s) => Reached(e, calls, s))
  {
    forall calls, s | Reached(e, calls, s) ensures Inv.Inv(s) {
      var steps :| IsRunTo(e, calls, steps, s);
      B.InvHolds(e, steps);
    }
    forall calls, call, s, step, s' | Reached(e, calls, s) && Does(e, s, call, step, s') ensures Reached(e, calls + [call], s') {
      var steps :| IsRunTo(e, calls, steps, s);
      RunGoesOn(e, calls, steps, s, call, step, s');
    }
  }

  lemma StartIsReached(e: Env)
    ensures Reached(e, [], INITIAL)
  {
    assert IsRunTo(e, [], [], INITIAL);
  }

  /** A watch from start to shutdown goes through the states of one run of the model. */
  method Watch(env: Env, calls: seq<Call>) returns (c: Correlator, ghost steps: seq<B.Step>, ghost order: seq<int>)
    ensures MakesAll(calls, steps)
    ensures B.Feasible(env, steps) && H.IsOrder(order, B.After(env, steps).buffer.pendingByPID.Keys)
    ensures fresh(c) && c.St() == H.ShutDown(env, B.After(env, steps), order)
  {
    c := new Correlator(env);
    ReachedFollows(env);
    StartIsReached(env);
    c.HandleAll(calls, (calls, s) => Reached(env, calls, s));
    steps :| IsRunTo(env, calls, steps, c.St());
    B.InvHolds(env, steps);
    order := c.Shutdown();
  }

  // ---------------------------------------------------------------------------------------------
  // Facts about the loops

  /** The images of the path have joined run r. */
  ghost predicate JoinedTo(s: State, path: seq<nat>, r: nat, s': State) {
    && WF(s) && WF(s') && InRange(path, |s.graph.arena|) && r < |s.graph.runs|
    && s' == s.(graph := H.JoinAll(s.graph, path, r))
  }

  lemma JoinAllNext(g: Graph, path: seq<nat>, i: nat, r: nat)
    requires GraphOk(g) && InRange(path, |g.arena|) && i < |g.arena| && r < |g.runs|
    ensures InRange(path + [i], |g.arena|)
    ensures H.JoinAll(g, path + [i], r) == M.Join(H.JoinAll(g, path, r), i, r)
  {
    assert (path + [i])[..|path|] == path;
  }

  /** The fork chain of image i from the image up to root. */
  predicate ChainTo(arena: seq<Image>, i: nat, root: nat, path: seq<nat>) {
    && EdgesOk(arena) && root < |arena| && i < |arena| && H.Eligible(arena, root) && H.Eligible(arena, i)
    && H.RootOf(arena, root) == H.RootOf(arena, i)
    && path != [] && InRange(path, |arena|) && path[|path| - 1] == root
    && var up, whole := H.PathTo(arena, root), H.PathTo(arena, i);
       && |whole| == |up| + |path| - 1 && up == whole[..|up|]
       && forall k | 0 <= k < |path| :: path[k] == whole[|whole| - 1 - k]
  }

  lemma ChainNext(arena: seq<Image>, i: nat, root: nat, path: seq<nat>)
    requires ChainTo(arena, i, root, path) && !arena[root].execSeen
    ensures arena[root].parent.Some? && ChainTo(arena, i, arena[root].parent.value, path + [arena[root].parent.value])
  {
    var p := arena[root].parent.value;
    var up, next := H.PathTo(arena, root), H.PathTo(arena, p);
    assert up[..|next|] == next;
  }

  lemma FinalizedInv(e: Env, s: State, order: seq<int>)
    requires Inv.Inv(s)
    ensures Inv.Inv(H.FinalizePids(e, s, order))
  {
    T.FinalizePidsKeeps(e, s, order, (pendings: seq<Pending>, db: Tables) => true);
  }

  /** The live members of the runs before r. */
  function LiveBelow(g: Graph, r: nat): set<nat>
    requires r <= |g.runs|
  {
    set k, i | 0 <= k < r && i in g.runs[k].live :: i
  }

  predicate RowOfSome(arena: seq<Image>, done: set<nat>, p: nat) {
    exists i | i in done :: i < |arena| && arena[i].rowID == p
  }

  /** The process rows once the images in `done` were closed. */
  function ClosedRows(g: Graph, done: set<nat>): (rows: seq<ProcessRow>) {
    seq(|g.db.processes|, p requires 0 <= p < |g.db.processes| =>
      if RowOfSome(g.arena, done, p) then EndedProcess(g.db.processes[p], None, ByWatchStopped, None) else g.db.processes[p])
  }

  predicate HasRow(g: Graph, i: nat) {
    i < |g.arena| && g.arena[i].run.Some? && g.arena[i].rowID < |g.db.processes|
  }

  /** `done` and the live members of run r are different images with process rows of their own. */
  ghost predicate Closing(g: Graph, r: nat, done: set<nat>) {
    && r < |g.runs|
    && done !! g.runs[r].live
    && (forall i | i in done + g.runs[r].live :: HasRow(g, i))
    && GI.RowsOwned(g.arena, |g.db.processes|)
  }

  lemma MembersClosing(g: Graph, r: nat)
    requires GI.GraphInv(g) && r < |g.runs|
    ensures Closing(g, r, LiveBelow(g, r)) && LiveBelow(g, r + 1) == LiveBelow(g, r) + g.runs[r].live
  {
    assert GI.IsLiveSet(g.arena, r, g.runs[r].live);
    forall i | i in LiveBelow(g, r) ensures HasRow(g, i) && g.arena[i].run.value < r {
      var k :| 0 <= k < r && i in g.runs[k].live;
      assert GI.IsLiveSet(g.arena, k, g.runs[k].live);
    }
  }

  /** Rows belong to one image each, so each is closed once. */
  lemma ClosesNext(g: Graph, done: set<nat>, i: nat)
    requires GI.RowsOwned(g.arena, |g.db.processes|) && i !in done && forall j | j in done + {i} :: HasRow(g, j)
    ensures HasRow(g, i)
    ensures
      var p := g.arena[i].rowID;
      ClosedRows(g, done + {i}) == ClosedRows(g, done)[p := EndedProcess(ClosedRows(g, done)[p], None, ByWatchStopped, None)]
  {
    var p := g.arena[i].rowID;
    assert HasRow(g, i);
    forall j | j in done ensures g.arena[j].rowID != p {
      assert HasRow(g, j);
      assert GI.Owns(g.arena, i, p) && (g.arena[j].rowID == p ==> GI.Owns(g.arena, j, p));
    }
    forall q: nat | q < |g.db.processes|
      ensures RowOfSome(g.arena, done + {i}, q) <==> RowOfSome(g.arena, done, q) || q == p
    {
      assert i in done + {i};
    }
  }

  /** The graph after the runs before r were closed. */
  predicate ClosedTo(g: Graph, r: nat, g': Graph) {
    && r <= |g.runs| == |g'.runs| == |g.db.runs| && g'.arena == g.arena
    && g'.db == g.db.(runs := g'.db.runs, processes := ClosedRows(g, LiveBelow(g, r)))
    && |g'.db.runs| == |g.runs|
    && (forall k | 0 <= k < |g.runs| :: g'.runs[k] == if k < r then g.runs[k].(live := {}, ended := true) else g.runs[k])
    && (forall k | 0 <= k < |g.runs| ::
          g'.db.runs[k] == if k < r && !g.runs[k].ended then EndedRun(g.db.runs[k], None, WatchStopped) else g.db.runs[k])
  }

  lemma AllClosed(g: Graph, g': Graph)
    requires GI.GraphInv(g) && ClosedTo(g, |g.runs|, g')
    ensures g' == H.CloseRuns(g)
  {
    forall p: nat | p < |g.db.processes|
      ensures RowOfSome(g.arena, LiveBelow(g, |g.runs|), p) <==> p in H.LiveRows(g)
    {
      if p in H.LiveRows(g) {
        var r, i :| 0 <= r < |g.runs| && i in g.runs[r].live && i < |g.arena| && g.arena[i].rowID == p;
        assert i in LiveBelow(g, |g.runs|);
      }
    }
    assert g'.db.processes == H.CloseRuns(g).db.processes;
    assert g'.runs == H.CloseRuns(g).runs && g'.db.runs == H.CloseRuns(g).db.runs;
  }

  /** The denial row routed by k points at image i. */
  predicate RoutesTo(arena: seq<Image>, stored: map<DenialKey, StoredDenial>, k: DenialKey, i: nat)
    requires i < |arena|
  {
    k in stored && stored[k].img == i && k in arena[i].denialKeys
  }

  /** Route k leads to an image of this list that eviction releases. */
  predicate DroppedBy(arena: seq<Image>, stored: map<DenialKey, StoredDenial>, k: DenialKey, list: seq<nat>, cutoff: Time)
    requires InRange(list, |arena|) && k in stored
  {
    var i := stored[k].img;
    i in list && H.Evictable(arena[i], cutoff) && k in arena[i].denialKeys
  }

  function KeptRoutes(arena: seq<Image>, stored: map<DenialKey, StoredDenial>, list: seq<nat>, cutoff: Time): map<DenialKey, StoredDenial>
    requires InRange(list, |arena|)
  {
    map k | k in stored && !DroppedBy(arena, stored, k, list, cutoff) :: stored[k]
  }

  /** What is kept of the first n images of a list, and the routes left after them. */
  predicate EvictedTo(
      arena: seq<Image>, was: map<DenialKey, StoredDenial>, list: seq<nat>, n: nat, cutoff: Time, kept: seq<nat>,
      stored: map<DenialKey, StoredDenial>)
  {
    && InRange(list, |arena|) && n <= |list|
    && kept == H.Retained(arena, list[..n], cutoff)
    && stored == KeptRoutes(arena, was, list[..n], cutoff)
  }

  lemma EvictNext(
      arena: seq<Image>, was: map<DenialKey, StoredDenial>, list: seq<nat>, n: nat, cutoff: Time, kept: seq<nat>,
      stored: map<DenialKey, StoredDenial>)
    requires EvictedTo(arena, was, list, n, cutoff, kept, stored) && n < |list|
    ensures
      if H.Evictable(arena[list[n]], cutoff)
      then EvictedTo(arena, was, list, n + 1, cutoff, kept, map k | k in stored && !RoutesTo(arena, stored, k, list[n]) :: stored[k])
      else EvictedTo(arena, was, list, n + 1, cutoff, kept + [list[n]], stored)
  {
    var next := list[..n + 1];
    assert next == list[..n] + [list[n]] && next[..n] == list[..n];
    forall k | k in was
      ensures DroppedBy(arena, was, k, next, cutoff)
         <==> DroppedBy(arena, was, k, list[..n], cutoff) || (H.Evictable(arena[list[n]], cutoff) && RoutesTo(arena, was, k, list[n]))
    {
    }
  }

  lemma Pick<T>(s: set<T>) returns (x: T)
    requires s != {}
    ensures x in s
  {
    x :| x in s;
  }

  /** The lists after eviction has visited the pids in `done`. */
  function Visited(arena: seq<Image>, lists: map<int, seq<nat>>, done: set<int>, cutoff: Time): map<int, seq<nat>>
    requires forall pid | pid in lists :: InRange(lists[pid], |arena|)
  {
    map pid | pid in lists && (pid in done ==> H.Retained(arena, lists[pid], cutoff) != [])
      :: if pid in done then H.Retained(arena, lists[pid], cutoff) else lists[pid]
  }

  predicate DroppedIn(
      arena: seq<Image>, stored: map<DenialKey, StoredDenial>, k: DenialKey, lists: map<int, seq<nat>>, done: set<int>, cutoff: Time)
    requires k in stored && forall pid | pid in lists :: InRange(lists[pid], |arena|)
  {
    exists pid | pid in lists && pid in done :: DroppedBy(arena, stored, k, lists[pid], cutoff)
  }

  /** The routes left after eviction has visited the pids in `done`. */
  function RoutesLeft(
      arena: seq<Image>, stored: map<DenialKey, StoredDenial>, lists: map<int, seq<nat>>, done: set<int>, cutoff: Time)
      : map<DenialKey, StoredDenial>
    requires forall pid | pid in lists :: InRange(lists[pid], |arena|)
  {
    map k | k in stored && !DroppedIn(arena, stored, k, lists, done, cutoff) :: stored[k]
  }

  lemma VisitNext(arena: seq<Image>, lists: map<int, seq<nat>>, done: set<int>, pid: int, cutoff: Time)
    requires forall q | q in lists :: InRange(lists[q], |arena|)
    requires pid in lists && pid !in done
    ensures
      var was := Visited(arena, lists, done, cutoff);
      var kept := H.Retained(arena, lists[pid], cutoff);
      && pid in was && was[pid] == lists[pid]
      && Visited(arena, lists, done + {pid}, cutoff) == if kept == [] then was - {pid} else was[pid := kept]
  {
  }

  lemma RoutesNext(
      arena: seq<Image>, stored: map<DenialKey, StoredDenial>, lists: map<int, seq<nat>>, done: set<int>, pid: int, cutoff: Time)
    requires forall q | q in lists :: InRange(lists[q], |arena|)
    requires pid in lists
    ensures KeptRoutes(arena, RoutesLeft(arena, stored, lists, done, cutoff), lists[pid], cutoff)
         == RoutesLeft(arena, stored, lists, done + {pid}, cutoff)
  {
    var was := RoutesLeft(arena, stored, lists, done, cutoff);
    forall k | k in stored
      ensures DroppedIn(arena, stored, k, lists, done + {pid}, cutoff)
         <==> DroppedIn(arena, stored, k, lists, done, cutoff) || DroppedBy(arena, stored, k, lists[pid], cutoff)
    {
      if DroppedBy(arena, stored, k, lists[pid], cutoff) {
        assert pid in lists && pid in done + {pid};
      }
    }
  }

  lemma AllVisited(arena: seq<Image>, x: Index, t: Routes, cutoff: Time)
    requires IndexOk(x, |arena|) && forall k | k in t.lastStored :: t.lastStored[k].img < |arena|
    ensures Visited(arena, x.byPID, x.byPID.Keys, cutoff) == H.EvictIndex(arena, x, cutoff).byPID
    ensures RoutesLeft(arena, t.lastStored, x.byPID, x.byPID.Keys, cutoff) == H.EvictRoutes(arena, x, t, cutoff).lastStored
  {
    forall k | k in t.lastStored
      ensures DroppedIn(arena, t.lastStored, k, x.byPID, x.byPID.Keys, cutoff) <==> H.Released(arena, x, t, k, cutoff)
    {
      if H.Released(arena, x, t, k, cutoff) {
        var pid :| pid in x.byPID && t.lastStored[k].img in x.byPID[pid];
        assert DroppedBy(arena, t.lastStored, k, x.byPID[pid], cutoff);
      }
    }
  }

  /** The list holds denials of this pid. */
  predicate AllOf(b: Buffer, pid: int, list: seq<nat>) {
    forall k | 0 <= k < |list| :: list[k] < |b.pendings| && b.pendings[list[k]].d.pid == pid
  }

  lemma KeepsDenials(e: Env, s: State, p: nat, now: Time, pid: int, list: seq<nat>)
    requires WF(s) && p < |s.buffer.pendings| && AllOf(s.buffer, pid, list)
    ensures AllOf(H.TickOne(e, s, p, now).buffer, pid, list)
  {
    T.TickOneDecides(e, s, p, now);
  }

  /** The kept part is at the front, the unvisited part where it was. */
  predicate Compacted(list: seq<nat>, pending: seq<nat>, n: nat, w: nat, front: seq<nat>) {
    w <= n <= |list| == |pending| && front == list[..w] && forall k | n <= k < |list| :: list[k] == pending[k]
  }

  lemma KeepsFront(list: seq<nat>, pending: seq<nat>, n: nat, w: nat, front: seq<nat>)
    requires Compacted(list, pending, n, w, front) && n < |list|
    ensures list[n] == pending[n] && Compacted(list[w := list[n]], pending, n + 1, w + 1, front + [list[n]])
  {
  }

  /** The result of visiting the first n denials of a list. */
  ghost predicate TickedTo(e: Env, s: State, list: seq<nat>, n: nat, now: Time, res: (State, seq<nat>)) {
    n <= |list| && WF(s) && InRange(list[..n], |s.buffer.pendings|) && res == H.TickList(e, s, list[..n], now)
  }

  lemma NextVisit(e: Env, s: State, list: seq<nat>, n: nat, now: Time, res: (State, seq<nat>))
    requires n < |list| && TickedTo(e, s, list, n, now, res) && list[n] < |s.buffer.pendings|
    ensures WF(res.0) && list[n] < |res.0.buffer.pendings|
    ensures TickedTo(e, s, list, n + 1, now,
      (H.TickOne(e, res.0, list[n], now), if H.Judge(e, res.0, list[n], now).Keep? then res.1 + [list[n]] else res.1))
  {
    assert list[..n + 1] == list[..n] + [list[n]];
    Inv.TickListSnoc(e, s, list[..n], list[n], now);
  }

  ghost predicate AllTicked(e: Env, s: State, pid: int, list: seq<nat>, n: nat, now: Time, s1: State, kept: seq<nat>) {
    TickedTo(e, s, list, n, now, (s1, kept)) && AllOf(s1.buffer, pid, list) && |s1.buffer.pendings| == |s.buffer.pendings|
  }

  /** The n-th denial of the list is one of the pid, and its tick leads on in R. */
  ghost predicate CanVisit(e: Env, pid: int, list: seq<nat>, now: Time, R: (nat, State, seq<nat>) -> bool, n: nat, s: State, kept: seq<nat>)
    requires n < |list|
  {
    && WF(s) && list[n] < |s.buffer.pendings| && s.buffer.pendings[list[n]].d.pid == pid
    && R(n + 1, H.TickOne(e, s, list[n], now), if H.Judge(e, s, list[n], now).Keep? then kept + [list[n]] else kept)
  }

  ghost predicate Visits(e: Env, pid: int, list: seq<nat>, now: Time, R: (nat, State, seq<nat>) -> bool) {
    forall n: nat, s: State, kept: seq<nat> {:trigger CanVisit(e, pid, list, now, R, n, s, kept)} ::
      R(n, s, kept) && n < |list| ==> CanVisit(e, pid, list, now, R, n, s, kept)
  }

  lemma TickedToVisits(e: Env, s: State, pid: int, list: seq<nat>, now: Time)
    requires WF(s) && AllOf(s.buffer, pid, list)
    ensures Visits(e, pid, list, now, (n: nat, s1: State, kept: seq<nat>) => AllTicked(e, s, pid, list, n, now, s1, kept))
    ensures AllTicked(e, s, pid, list, 0, now, s, [])
  {
    forall n: nat, s1: State, kept: seq<nat> | AllTicked(e, s, pid, list, n, now, s1, kept) && n < |list|
      ensures CanVisit(e, pid, list, now, (n: nat, s1: State, kept: seq<nat>) => AllTicked(e, s, pid, list, n, now, s1, kept), n, s1, kept)
    {
      NextVisit(e, s, list, n, now, (s1, kept));
      KeepsDenials(e, s1, list[n], now, pid, list);
    }
  }

  /** A tick finds only denials of a pid in the pid's list, whichever pids it visited before. */
  lemma VisitedLists(e: Env, s: State, order: seq<int>, now: Time, pid: int)
    requires Inv.Inv(s)
    ensures AllOf(H.TickPids(e, s, order, now).buffer, pid, ListOf(H.TickPids(e, s, order, now).buffer.pendingByPID, pid))
  {
    Inv.TickPidsInv(e, s, order, now);
    var b := H.TickPids(e, s, order, now).buffer;
    if pid in b.pendingByPID {
      assert BI.WaitingList(b, pid, b.pendingByPID[pid]);
    }
  }

  lemma OrderNext(order: seq<int>, keys: set<int>, todo: set<int>, pid: int)
    requires H.IsOrder(order, keys - todo) && pid in todo && pid in keys
    ensures H.IsOrder(order + [pid], keys - (todo - {pid}))
  {
  }
}
