/** Once process events have passed a time, which later process event still changes who a pid was
  at that time: exactly the first event of a process that was already running then. */
module Finality {
  import opened Events
  import opened Tables
  import opened Model
  import opened Handlers
  import opened IndexInvariants

  // ---------------------------------------------------------------------------------------------
  // Resolution in one list

  /** The image stays what it was, except that a running image may have ended at time t or later. */
  predicate OnlyEnds(a: Image, b: Image, t: Time) {
    && b.proc == a.proc && b.noToken == a.noToken && b.start == a.start
    && (b.end == a.end || (a.end.None? && b.end.Some? && b.end.value.at >= t))
  }

  /** Images were added and some ended, none before t. */
  predicate EndsFrom(a: seq<Image>, b: seq<Image>, t: Time) {
    |a| <= |b| && forall i | 0 <= i < |a| :: OnlyEnds(a[i], b[i], t)
  }

  lemma {:induction false} LaterEndsResolveAlike(a: seq<Image>, b: seq<Image>, list: seq<nat>, t: Time)
    requires InRange(list, |a|) && EndsFrom(a, b, t - TIME_SLACK)
    ensures ResolveIn(b, list, t) == ResolveIn(a, list, t)
    decreases |list|
  {
    if list != [] {
      assert OnlyEnds(a[list[|list| - 1]], b[list[|list| - 1]], t - TIME_SLACK);
      LaterEndsResolveAlike(a, b, list[..|list| - 1], t);
    }
  }

  /** Image i started by time t, and later than every listed image that did. */
  predicate Covers(arena: seq<Image>, list: seq<nat>, i: nat, t: Time)
    requires InRange(list, |arena|) && i < |arena|
  {
    && arena[i].start <= t + TIME_SLACK
    && forall k | 0 <= k < |list| :: arena[list[k]].start <= arena[i].start || arena[list[k]].start > t + TIME_SLACK
  }

  /** A newly listed image is what a time resolves to exactly when it covers that time. */
  lemma {:induction false} InsertedResolves(arena: seq<Image>, list: seq<nat>, i: nat, t: Time)
    requires InRange(list, |arena|) && i < |arena| && arena[i].end.None? && SortedByStart(arena, list)
    ensures ResolveIn(arena, InsertByStart(arena, list, i), t)
         == if Covers(arena, list, i, t) then Some(i) else ResolveIn(arena, list, t)
    decreases |list|
  {
    var n := |list|;
    if n == 0 || arena[list[n - 1]].start <= arena[i].start {
      assert (list + [i])[..n] == list;
    } else {
      var rest := InsertByStart(arena, list[..n - 1], i);
      assert (rest + [list[n - 1]])[..|rest|] == rest;
      InsertedResolves(arena, list[..n - 1], i, t);
      assert arena[list[n - 1]].start > t + TIME_SLACK ==> (Covers(arena, list, i, t) <==> Covers(arena, list[..n - 1], i, t));
    }
  }

  // ---------------------------------------------------------------------------------------------
  // Process events

  /** Registering image img changes the resolution of its own pid only, at the times it covers. */
  lemma RegisterResolves(s: State, img: Image, pid: int, t: Time)
    requires WF(s) && IndexInv(s.graph.arena, s.index) && FreshImage(img, |s.graph.arena|)
    ensures
      var arena := s.graph.arena + [img];
      Resolve(Register(s, img), pid, t)
        == if pid == img.proc.token.pid && Covers(arena, ListOf(s.index.byPID, pid), |s.graph.arena|, t)
           then Some(|s.graph.arena|) else Resolve(s, pid, t)
  {
    var arena := s.graph.arena + [img];
    var list := ListOf(s.index.byPID, pid);
    LaterEndsResolveAlike(s.graph.arena, arena, list, t);
    if pid == img.proc.token.pid {
      assert list != [] ==> PidList(s.graph.arena, s.index.images, pid, list);
      InsertedResolves(arena, list, |s.graph.arena|, t);
    }
  }

  /** The event is the first one of a process that already ran at time t, on this pid, and started
    after every process of the pid that is known to have started by t. */
  predicate Discovers(s: State, ev: Event, pid: int, t: Time)
    requires WF(s)
  {
    && (ev.kind == Fork || ev.kind == Exec)
    && ev.process.token !in s.index.images
    && ev.process.token.pid == pid
    && Covers(s.graph.arena + [Untracked(ev.process)], ListOf(s.index.byPID, pid), |s.graph.arena|, t)
  }

  lemma SeeBothResolves(s: State, ev: Event, pid: int, t: Time)
    requires WF(s) && IndexInv(s.graph.arena, s.index) && (ev.kind == Fork || ev.kind == Exec)
    ensures Resolve(SeeBoth(s, ev), pid, t) == if Discovers(s, ev, pid, t) then Some(|s.graph.arena|) else Resolve(s, pid, t)
    ensures IndexInv(SeeBoth(s, ev).graph.arena, SeeBoth(s, ev).index)
  {
    if ev.process.token !in s.index.images {
      RegisterResolves(s, Untracked(ev.process), pid, t);
      IndexedKeeps(s.graph.arena, s.index, Untracked(ev.process));
    }
  }

  lemma ForkedResolves(s: State, ev: Event, pid: int, t: Time)
    requires WF(s) && IndexInv(s.graph.arena, s.index) && ev.kind == Fork && ev.time > t + TIME_SLACK
    ensures Resolve(HandleFork(s, ev), pid, t) == Resolve(SeeBoth(s, ev), pid, t)
  {
    var s1 := SeeBoth(s, ev);
    SeeBothResolves(s, ev, pid, t);
    if ev.target.token !in s1.index.images {
      var parent := s1.index.images[ev.process.token];
      var img := s1.graph.arena[parent];
      var child := Forked(ev, parent, img.args, img.cwd);
      var s2 := Register(s1, child);
      RegisterResolves(s1, child, pid, t);
      if img.run.Some? {
        var g := Join(s2.graph, |s1.graph.arena|, img.run.value);
        LaterEndsResolveAlike(s2.graph.arena, g.arena, ListOf(s2.index.byPID, pid), t);
      }
    }
  }

  lemma FinishExecEnds(e: Env, g: Graph, ev: Event, i: nat, actor: nat)
    requires GraphOk(g) && i < |g.arena| && actor < |g.arena|
    ensures EndsFrom(g.arena, FinishExec(e, g, ev, i, actor).arena, ev.time)
  {
    var g1 := JoinExeced(e, g, ev, i, g.arena[actor].run);
    assert EndsFrom(g.arena, g1.arena, ev.time);
    EndImageEnds(g1, actor, End(ev.time, ByExec, None));
  }

  lemma EndImageEnds(g: Graph, i: nat, end: End)
    requires GraphOk(g) && i < |g.arena|
    ensures EndsFrom(g.arena, EndImage(g, i, end).arena, end.at)
  {
  }

  lemma ExecedResolves(e: Env, s: State, ev: Event, pid: int, t: Time)
    requires WF(s) && IndexInv(s.graph.arena, s.index) && ev.kind == Exec && ev.time > t + TIME_SLACK
    ensures Resolve(HandleExec(e, s, ev), pid, t) == Resolve(SeeBoth(s, ev), pid, t)
  {
    var s1 := SeeBoth(s, ev);
    SeeBothResolves(s, ev, pid, t);
    if ev.target.token !in s1.index.images {
      var actor := s1.index.images[ev.process.token];
      var img := Execed(ev, actor, s1.graph.arena[actor].parent);
      var s2 := Register(s1, img);
      RegisterResolves(s1, img, pid, t);
      FinishExecEnds(e, s2.graph, ev, |s1.graph.arena|, actor);
      LaterEndsResolveAlike(s2.graph.arena, FinishExec(e, s2.graph, ev, |s1.graph.arena|, actor).arena, ListOf(s2.index.byPID, pid), t);
    }
  }

  lemma ExitResolves(s: State, ev: Event, pid: int, t: Time)
    requires WF(s) && ev.time > t + TIME_SLACK
    ensures Resolve(HandleExit(s, ev), pid, t) == Resolve(s, pid, t)
  {
    if ev.process.token in s.index.images {
      var i := s.index.images[ev.process.token];
      var end := End(ev.time, ByExit, Some(ev.exitStatus));
      EndImageEnds(s.graph, i, end);
      LaterEndsResolveAlike(s.graph.arena, EndImage(s.graph, i, end).arena, ListOf(s.index.byPID, pid), t);
    }
  }

  /** What a pid was at a time the watermark has passed is final: of the events that are not older
    than the watermark, exactly those that discover a process still change it. */
  lemma WatermarkIsFinal(e: Env, s: State, ev: Event, pid: int, t: Time)
    requires WF(s) && IndexInv(s.graph.arena, s.index) && CaughtUp(s, t) && ev.time >= s.watermark
    ensures Resolve(HandleES(e, s, ev), pid, t) == Resolve(s, pid, t) <==> !Discovers(s, ev, pid, t)
    ensures Discovers(s, ev, pid, t) ==> Resolve(HandleES(e, s, ev), pid, t) == Some(|s.graph.arena|)
  {
    var s1 := s.(watermark := Later(s.watermark, ev.time));
    match ev.kind {
      case Fork =>
        SeeBothResolves(s1, ev, pid, t);
        ForkedResolves(s1, ev, pid, t);
      case Exec =>
        SeeBothResolves(s1, ev, pid, t);
        ExecedResolves(e, s1, ev, pid, t);
      case Exit => ExitResolves(s1, ev, pid, t);
      case OtherKind =>
    }
  }
}
