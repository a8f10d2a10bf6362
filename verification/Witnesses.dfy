/** Runs that reach what a reader may think impossible: a settled resolution that changes, a process that
  runs in an exited run, and a row that does not name the parent it shares a run with, although every event
  comes in order; and, with events out of order, a process that runs in an exited sandbox-exec run. */
module Witnesses {
  import opened Events
  import opened Tables
  import opened Model
  import opened Handlers
  import opened Invariant
  import opened Behaviour
  import opened Finality
  import opened Timeline
  import opened Settled
  import opened Exits
  import opened Latecomers
  import opened Outliving
  import Decisions
  import GI = GraphInvariants

  const MS: Time := 1_000_000

  function Actor(pid: int, pidversion: int, path: string): Proc {
    Proc(Token(pid, pidversion), 0, path, false, "", "", "", ZERO_TIME)
  }

  function EventAt(kind: Kind, t: Time, process: Proc, target: Proc): Event {
    Event(kind, t, process, target, [], "", [], 0)
  }

  /** The steps, all of them in order, lead to state s. */
  ghost predicate Reaches(e: Env, steps: seq<Step>, s: State) {
    Feasible(e, steps) && OrderedRun(e, steps) && ActorsRun(e, steps) && s == After(e, steps)
  }

  lemma Begin(e: Env) returns (steps: seq<Step>)
    ensures Reaches(e, steps, INITIAL)
  {
    steps := [];
  }

  lemma Goes(e: Env, steps: seq<Step>, s: State, step: Step) returns (steps': seq<Step>)
    requires Reaches(e, steps, s) && Possible(s, step) && (step.ProcessEvent? ==> Ordered(s, step.ev))
    ensures steps' == steps + [step] && Reaches(e, steps', Apply(e, s, step))
  {
    steps' := steps + [step];
    assert steps'[..|steps|] == steps;
  }

  // ---------------------------------------------------------------------------------------------
  // A process that predates the watch is met late

  const QUIET := EventAt(OtherKind, 10 * MS, Actor(9, 1, "/q"), Actor(9, 1, "/q"))
  const MET := EventAt(Fork, 20 * MS, Actor(1, 1, "/p"), Actor(2, 1, "/p"))

  /** Process events have passed time 0 and pid 1 is nobody then; the next event, in order, is the first
    of a process that ran at time 0, and now pid 1 is that process. */
  lemma SettledTimeCanChange(e: Env) returns (steps: seq<Step>, s: State, ev: Event)
    ensures Reaches(e, steps, s) && Reaches(e, steps + [ProcessEvent(ev)], HandleES(e, s, ev))
    ensures CaughtUp(s, 0) && Resolve(s, 1, 0) == None && Resolve(HandleES(e, s, ev), 1, 0) == Some(0)
  {
    steps := Begin(e);
    steps := Goes(e, steps, INITIAL, ProcessEvent(QUIET));
    s, ev := HandleES(e, INITIAL, QUIET), MET;
    MetLate(e, s);
    var next := Goes(e, steps, s, ProcessEvent(ev));
  }

  lemma MetLate(e: Env, s: State)
    requires s == INITIAL.(watermark := 10 * MS)
    ensures Ordered(s, MET) && Resolve(s, 1, 0) == None && Resolve(HandleES(e, s, MET), 1, 0) == Some(0)
  {
    WatermarkIsFinal(e, s, MET, 1, 0);
  }

  // ---------------------------------------------------------------------------------------------
  // A candidate joins the run of its parent, which has exited

  /** The tag of every denial that has a message. */
  const TAG := Match("kind", "key", "detail", "tag")

  /** No run has a session of its own, and nothing is app-sandboxed. */
  const ENV := Env(
    1000 * MS,
    (path: string) => Text(""),
    (dir: string, file: string) => dir + "/" + file,
    (env: seq<string>) => map[],
    (text: string, args: seq<string>, env: map<string, string>) => None,
    (message: string) => Some(TAG),
    Some((path: string, cdhash: string) => Some(false)))

  const SHELL := Actor(1, 1, "/bin/sh")
  const APP := Actor(1, 2, "/app")
  const CHILD := Actor(2, 1, "/app")

  function DenialAt(pid: int, t: Time): Denial {
    Denial(t, "app", pid, 1, "file-read", "/x", "", 0)
  }

  const EXEC := EventAt(Exec, 10 * MS, SHELL, APP)
  const FORK := EventAt(Fork, 20 * MS, APP, CHILD)
  const LATER := EventAt(OtherKind, 60 * MS, APP, APP)
  const DENIED := DenialAt(1, 20 * MS)
  const EXIT := EventAt(Exit, 70 * MS, APP, APP)
  const CHILD_DENIED := DenialAt(2, 30 * MS)

  /** The app, image 1, was exec'd by the shell and forked its child, image 2, which runs. */
  predicate Family(s: State) {
    && WF(s) && |s.graph.arena| == 3
    && (var app := s.graph.arena[1]; app.proc == APP && app.execSeen && !app.noToken && app.start == 10 * MS)
    && (var child := s.graph.arena[2];
        && child.proc == CHILD && !child.execSeen && !child.noToken && child.start == 20 * MS
        && child.parent == Some(1) && child.end.None?)
    && ListOf(s.index.byPID, 2) == [2]
    && APP.token in s.index.images && s.index.images[APP.token] == 1
  }

  predicate Started(s: State) {
    && Family(s) && s.watermark == 60 * MS
    && ListOf(s.index.byPID, 1) == [0, 1] && s.graph.arena[1].end.None?
    && s.graph.arena[1].run.None? && s.graph.arena[2].run.None? && s.graph.runs == []
    && s.buffer == Buffer([], map[], map[]) && s.caches == Caches(map[], map[])
  }

  /** Only the app was exec'd yet. */
  predicate AppRuns(s: State) {
    && WF(s) && |s.graph.arena| == 2 && s.watermark == 10 * MS
    && (var app := s.graph.arena[1];
        app.proc == APP && app.execSeen && !app.noToken && app.start == 10 * MS && app.end.None? && app.run.None?)
    && APP.token in s.index.images && s.index.images[APP.token] == 1 && CHILD.token !in s.index.images
    && ListOf(s.index.byPID, 1) == [0, 1] && ListOf(s.index.byPID, 2) == []
    && s.graph.runs == [] && s.buffer == Buffer([], map[], map[]) && s.caches == Caches(map[], map[])
  }

  lemma ExecInOrder()
    ensures Ordered(INITIAL, EXEC)
  {
  }

  lemma AppStarts()
    ensures AppRuns(HandleES(ENV, INITIAL, EXEC))
  {
    var s1 := SeeBoth(INITIAL.(watermark := 10 * MS), EXEC);
    ShellSeen();
    assert !(EXEC.target.path == SANDBOX_EXEC_PATH);
    assert [0][..0] == [];
  }

  lemma ShellSeen()
    ensures
      var s1 := SeeBoth(INITIAL.(watermark := 10 * MS), EXEC);
      && s1.graph == INITIAL.graph.(arena := [Untracked(SHELL)]) && s1.buffer == INITIAL.buffer && s1.caches == INITIAL.caches
      && s1.watermark == 10 * MS && s1.index.images[SHELL.token] == 0
      && APP.token !in s1.index.images && CHILD.token !in s1.index.images
      && ListOf(s1.index.byPID, 1) == [0] && ListOf(s1.index.byPID, 2) == []
  {
  }

  lemma ChildStarts(s: State)
    requires AppRuns(s)
    ensures Ordered(s, FORK)
    ensures Started(HandleES(ENV, s, FORK).(watermark := 60 * MS)) && HandleES(ENV, s, FORK).watermark == 20 * MS
  {
    var s1 := SeeBoth(s.(watermark := 20 * MS), FORK);
    assert s1.graph == s.graph && s1.index == s.index;
  }

  lemma TimePasses(s: State)
    requires WF(s) && s.watermark <= 60 * MS
    ensures Ordered(s, LATER) && HandleES(ENV, s, LATER) == s.(watermark := 60 * MS)
  {
  }

  lemma StartReached() returns (steps: seq<Step>, s: State)
    ensures Reaches(ENV, steps, s) && Started(s)
  {
    steps := Begin(ENV);
    ExecInOrder();
    AppStarts();
    steps := Goes(ENV, steps, INITIAL, ProcessEvent(EXEC));
    s := HandleES(ENV, INITIAL, EXEC);
    ChildStarts(s);
    steps := Goes(ENV, steps, s, ProcessEvent(FORK));
    s := HandleES(ENV, s, FORK);
    TimePasses(s);
    steps := Goes(ENV, steps, s, ProcessEvent(LATER));
    s := HandleES(ENV, s, LATER);
  }

  /** A denial that waits alone. */
  predicate WaitsAlone(b: Buffer, p: nat, d: Denial) {
    && b.pendingByPID.Keys == {d.pid} && b.pendingByPID[d.pid] == [p]
    && p < |b.pendings| && b.pendings[p].d == d && b.pendings[p].arrived == 0
  }

  lemma DenialWaits(s: State, d: Denial)
    requires WF(s) && d.duplicate == 0 && Attributable(s, d) == None && s.buffer.pendingByPID.Keys == {}
    ensures
      var s' := HandleDenial(ENV, s, d, 0);
      s' == s.(buffer := s'.buffer) && WaitsAlone(s'.buffer, |s.buffer.pendings|, d)
  {
    assert ListOf(s.buffer.pendingByPID, d.pid) == [];
  }

  /** The tick that finalizes the one denial that waits. */
  lemma TickFinalizes(s: State, p: nat, d: Denial)
    requires WF(s) && WaitsAlone(s.buffer, p, d) && CaughtUp(s, d.time)
    ensures IsOrder([d.pid], s.buffer.pendingByPID.Keys)
    ensures
      var s1 := Finalize(ENV, s, p, true);
      var s' := Tick(ENV, s, 1000 * MS, [d.pid]);
      && s'.graph == s1.graph && s'.watermark == s1.watermark && s'.caches == s1.caches && s'.buffer.pendingByPID.Keys == {}
      && s'.index == EvictIndex(s1.graph.arena, s1.index, 1000 * MS - Retention(ENV))
  {
    ListFinalizes(s, p, d);
    assert TickPids(ENV, s, [], 1000 * MS) == s && [d.pid][..0] == [];
  }

  lemma ListFinalizes(s: State, p: nat, d: Denial)
    requires WF(s) && WaitsAlone(s.buffer, p, d) && CaughtUp(s, d.time)
    ensures TickList(ENV, s, [p], 1000 * MS) == (Finalize(ENV, s, p, true), [])
  {
    TickListSnoc(ENV, s, [], p, 1000 * MS);
    assert [] + [p] == [p];
  }

  /** A denial that cannot be attributed arrives, and one window later comes a tick. */
  lemma WaitAndTick(steps: seq<Step>, s: State, d: Denial) returns (steps': seq<Step>, s1: State)
    requires Reaches(ENV, steps, s) && WF(s) && s.buffer.pendingByPID.Keys == {}
    requires d.duplicate == 0 && Attributable(s, d) == None && CaughtUp(s, d.time)
    ensures s1 == s.(buffer := s1.buffer) && WaitsAlone(s1.buffer, |s.buffer.pendings|, d)
    ensures WF(s1) && Reaches(ENV, steps', Tick(ENV, s1, 1000 * MS, [d.pid]))
    ensures Tick(ENV, s1, 1000 * MS, [d.pid]).buffer.pendingByPID.Keys == {}
  {
    DenialWaits(s, d);
    steps' := Goes(ENV, steps, s, DenialLine(d, 0));
    s1 := HandleDenial(ENV, s, d, 0);
    TickFinalizes(s1, |s.buffer.pendings|, d);
    steps' := Goes(ENV, steps', s1, TickAt(1000 * MS, [d.pid]));
  }

  /** A denial without a session tag, of a candidate that is in no run: the candidate joins, and the
    denial is stored. */
  lemma FinalizeJoins(s0: State, p: nat, i: nat)
    requires WF(s0) && p < |s0.buffer.pendings| && i < |s0.graph.arena| && s0.graph.arena[i].run.None?
    requires
      var d := s0.buffer.pendings[p].d;
      d.message == "" && Resolve(s0, d.pid, d.time) == Some(i) && IsCandidate(ENV, s0, i)
    ensures
      var s' := Finalize(ENV, s0, p, true);
      var g := JoinCandidate(s0.graph, i);
      && s'.watermark == s0.watermark && s'.index == s0.index && s'.graph.runs == g.runs && |s'.graph.arena| == |g.arena|
      && (forall k | 0 <= k < |g.arena| :: s'.graph.arena[k] == g.arena[k].(denialKeys := s'.graph.arena[k].denialKeys))
  {
    var s := s0.(buffer := ForgetPending(s0.buffer, p));
    assert Resolve(s, s.buffer.pendings[p].d.pid, s.buffer.pendings[p].d.time) == Some(i);
    assert IsCandidate(ENV, s, i);
  }

  /** Eviction, which is far behind, leaves the family alone. */
  lemma FamilyStays(s: State, s': State, cutoff: Time)
    requires Family(s) && WF(s') && |s'.graph.arena| == 3 && cutoff < 0
    requires forall k | 0 <= k < 3 ::
      var a, b := s.graph.arena[k], s'.graph.arena[k];
      b == a.(run := b.run, rowID := b.rowID, denialKeys := b.denialKeys)
    requires s'.index == EvictIndex(s'.graph.arena, s.index, cutoff)
    requires s.graph.arena[1].end.Some? ==> s.graph.arena[1].end.value.at >= 0
    ensures Family(s')
  {
    assert Retained(s'.graph.arena, [2], cutoff) == [2] by {
      assert [2][..0] == [];
    }
  }

  lemma AppJoins(g: Graph)
    requires GraphOk(g) && |g.arena| == 3 && g.runs == []
    requires g.arena[1].proc == APP && g.arena[1].execSeen && !g.arena[1].noToken && g.arena[1].run.None? && g.arena[1].end.None?
    ensures Eligible(g.arena, 1) && RootOf(g.arena, 1) == 1
    ensures
      var g' := JoinCandidate(g, 1);
      && g'.arena == g.arena[1 := g.arena[1].(run := Some(0), rowID := g'.arena[1].rowID)]
      && |g'.runs| == 1 && g'.runs[0].kind == SandboxInit && g'.runs[0].live == {1} && !g'.runs[0].ended
  {
    var g1 := AddRun(g, SandboxInitRow(g.arena[1]), false);
    assert PathTo(g.arena, 1) == [1] && [1][..0] == [];
    assert JoinAll(g1, [1], 0) == Join(g1, 1, 0);
    assert 1 in Join(g1, 1, 0).runs[0].live;
  }

  lemma ChildJoins(g: Graph)
    requires GraphOk(g) && |g.arena| == 3 && |g.runs| == 1 && g.runs[0].ended
    requires g.arena[1].proc == APP && g.arena[1].execSeen && !g.arena[1].noToken && g.arena[1].run == Some(0)
    requires g.arena[2].proc == CHILD && !g.arena[2].execSeen && !g.arena[2].noToken && g.arena[2].parent == Some(1)
    requires g.arena[2].run.None? && g.arena[2].end.None?
    ensures Eligible(g.arena, 2) && RootOf(g.arena, 2) == 1
    ensures
      var g' := JoinCandidate(g, 2);
      && |g'.arena| == 3 && g'.arena[2].run == Some(0) && g'.arena[2].end.None?
      && |g'.runs| == 1 && g'.runs[0].ended && g'.runs[0].kind == g.runs[0].kind
  {
    assert PathTo(g.arena, 1) == [1] && PathTo(g.arena, 2) == [1] + [2];
    assert ([1] + [2])[..1] == [1] && [1][..0] == [];
    assert JoinAll(g, [1], 0) == g;
  }

  /** The app is the only member of its run, and runs. */
  predicate AppIn(s: State) {
    && Family(s) && s.watermark == 60 * MS && s.buffer.pendingByPID.Keys == {}
    && |s.graph.runs| == 1 && s.graph.runs[0].kind == SandboxInit && s.graph.runs[0].live == {1} && !s.graph.runs[0].ended
    && s.graph.arena[1].run == Some(0) && s.graph.arena[1].end.None? && s.graph.arena[2].run.None?
  }

  lemma AppResolves(s: State)
    requires Started(s)
    ensures Resolve(s, 1, 20 * MS) == Some(1)
  {
    assert [0, 1][..1] == [0];
  }

  /** The tick after the app's denial. */
  lemma AppDecided(s: State, p: nat)
    requires Family(s) && WaitsAlone(s.buffer, p, DENIED) && Resolve(s, 1, 20 * MS) == Some(1)
    requires s.watermark == 60 * MS && s.caches == Caches(map[], map[])
    requires s.graph.arena[1].run.None? && s.graph.arena[1].end.None? && s.graph.arena[2].run.None? && s.graph.runs == []
    ensures AppIn(Tick(ENV, s, 1000 * MS, [1]))
  {
    AppFinalized(s, p);
    TickFinalizes(s, p, DENIED);
    FamilyStays(s, Tick(ENV, s, 1000 * MS, [1]), 1000 * MS - Retention(ENV));
  }

  lemma AppFinalized(s: State, p: nat)
    requires Family(s) && p < |s.buffer.pendings| && s.buffer.pendings[p].d == DENIED && Resolve(s, 1, 20 * MS) == Some(1)
    requires s.caches == Caches(map[], map[])
    requires s.graph.arena[1].run.None? && s.graph.arena[1].end.None? && s.graph.arena[2].run.None? && s.graph.runs == []
    ensures
      var s' := Finalize(ENV, s, p, true);
      && s'.watermark == s.watermark && s'.index == s.index && |s'.graph.arena| == 3
      && (forall k | 0 <= k < 3 ::
            var a, b := s.graph.arena[k], s'.graph.arena[k];
            b == a.(run := b.run, rowID := b.rowID, denialKeys := b.denialKeys))
      && s'.graph.arena[1].run == Some(0) && s'.graph.arena[2].run.None?
      && |s'.graph.runs| == 1 && s'.graph.runs[0].kind == SandboxInit && s'.graph.runs[0].live == {1} && !s'.graph.runs[0].ended
  {
    AppJoins(s.graph);
    FinalizeJoins(s, p, 1);
  }

  lemma AppInReached() returns (steps: seq<Step>, s: State)
    ensures Reaches(ENV, steps, s) && AppIn(s)
  {
    var s1: State;
    steps, s := StartReached();
    AppResolves(s);
    steps, s1 := WaitAndTick(steps, s, DENIED);
    AppDecided(s1, |s.buffer.pendings|);
    s := Tick(ENV, s1, 1000 * MS, [1]);
  }

  /** The app is gone and its run is over; the child runs, in no run. */
  predicate AppGone(s: State) {
    && Family(s) && s.watermark == 70 * MS
    && |s.graph.runs| == 1 && s.graph.runs[0].kind == SandboxInit && s.graph.runs[0].ended
    && s.graph.arena[1].run == Some(0) && s.graph.arena[2].run.None?
    && s.graph.arena[1].end.Some? && s.graph.arena[1].end.value.at >= 0
  }

  lemma AppExits(s: State)
    requires AppIn(s)
    ensures Ordered(s, EXIT) && AppGone(HandleES(ENV, s, EXIT)) && HandleES(ENV, s, EXIT).buffer == s.buffer
  {
  }

  lemma ChildResolves(s: State)
    requires AppGone(s)
    ensures Resolve(s, 2, 30 * MS) == Some(2)
  {
  }

  lemma ChildDecided(s: State, p: nat)
    requires AppGone(s) && WaitsAlone(s.buffer, p, CHILD_DENIED) && Resolve(s, 2, 30 * MS) == Some(2)
    ensures
      var g := Tick(ENV, s, 1000 * MS, [2]).graph;
      |g.runs| == 1 && g.runs[0].kind == SandboxInit && Outlives(g, 2, 0)
  {
    ChildJoins(s.graph);
    FinalizeJoins(s, p, 2);
    TickFinalizes(s, p, CHILD_DENIED);
  }

  lemma AppGoneReached() returns (steps: seq<Step>, s: State)
    ensures Reaches(ENV, steps, s) && AppGone(s) && s.buffer.pendingByPID.Keys == {}
  {
    steps, s := AppInReached();
    AppExits(s);
    steps := Goes(ENV, steps, s, ProcessEvent(EXIT));
    s := HandleES(ENV, s, EXIT);
  }

  lemma ChildJoined() returns (steps: seq<Step>, s: State)
    ensures Reaches(ENV, steps, s)
    ensures |s.graph.runs| == 1 && s.graph.runs[0].kind == SandboxInit && Outlives(s.graph, 2, 0)
  {
    var s1: State;
    steps, s := AppGoneReached();
    ChildResolves(s);
    steps, s1 := WaitAndTick(steps, s, CHILD_DENIED);
    ChildDecided(s1, |s.buffer.pendings|);
    s := Tick(ENV, s1, 1000 * MS, [2]);
  }

  /** The shell execs the app, the app forks a child, a denial makes a sandbox-init run of the app, the
    app exits and so does its run; then a denial of the child makes it join the exited run, and it runs. */
  lemma ExitedRunCanRun() returns (steps: seq<Step>, s: State)
    ensures Reaches(ENV, steps, s)
    ensures |s.graph.db.runs| == 1 && s.graph.db.runs[0].kind == SandboxInit && RunsOn(s.graph, 0)
  {
    steps, s := ChildJoined();
    InvHolds(ENV, steps);
    RunsOnOutlives(s.graph, 0);
    assert GI.RunRowFollows(s.graph.runs[0], s.graph.db.runs[0], 0);
  }

  // ---------------------------------------------------------------------------------------------
  // A parent is adopted after its child

  const PARENT := Actor(1, 1, "/p")
  const BORN := EventAt(Fork, 20 * MS, PARENT, CHILD)
  const TAGGED_CHILD := DenialAt(2, 30 * MS).(message := "m")
  const TAGGED_PARENT := DenialAt(1, 30 * MS).(message := "m")

  /** The parent, image 0, predates the watch; it forked the child, image 1, and both run. */
  predicate Kin(s: State) {
    && WF(s) && |s.graph.arena| == 2 && s.watermark == 60 * MS
    && (var parent := s.graph.arena[0]; parent.start == 0 && parent.end.None?)
    && (var child := s.graph.arena[1]; child.start == 20 * MS && child.end.None? && child.parent == Some(0) && child.prev.None?)
    && ListOf(s.index.byPID, 1) == [0] && ListOf(s.index.byPID, 2) == [1]
  }

  predicate KinOutside(s: State) {
    Kin(s) && s.graph.arena[0].run.None? && s.graph.arena[1].run.None? && s.graph.runs == [] && s.caches.adopted == map[]
  }

  lemma BirthInOrder()
    ensures Ordered(INITIAL, BORN)
  {
  }

  lemma ParentSeen()
    ensures
      var s1 := SeeBoth(INITIAL.(watermark := 20 * MS), BORN);
      && s1.graph == INITIAL.graph.(arena := [Untracked(PARENT)]) && s1.buffer == INITIAL.buffer && s1.caches == INITIAL.caches
      && s1.watermark == 20 * MS && s1.index.images[PARENT.token] == 0 && CHILD.token !in s1.index.images
      && ListOf(s1.index.byPID, 1) == [0] && ListOf(s1.index.byPID, 2) == []
  {
  }

  lemma KinStart()
    ensures KinOutside(HandleES(ENV, INITIAL, BORN).(watermark := 60 * MS))
    ensures HandleES(ENV, INITIAL, BORN).watermark == 20 * MS && HandleES(ENV, INITIAL, BORN).buffer == INITIAL.buffer
  {
    ParentSeen();
  }

  lemma KinReached() returns (steps: seq<Step>, s: State)
    ensures Reaches(ENV, steps, s) && KinOutside(s) && s.buffer.pendingByPID.Keys == {}
  {
    steps := Begin(ENV);
    BirthInOrder();
    KinStart();
    steps := Goes(ENV, steps, INITIAL, ProcessEvent(BORN));
    s := HandleES(ENV, INITIAL, BORN);
    TimePasses(s);
    steps := Goes(ENV, steps, s, ProcessEvent(LATER));
    s := HandleES(ENV, s, LATER);
  }

  /** A denial with a session tag, of an image that is in no run: the image joins the adopted run. */
  lemma FinalizeAdopts(s0: State, p: nat, i: nat)
    requires WF(s0) && p < |s0.buffer.pendings| && i < |s0.graph.arena| && s0.graph.arena[i].run.None?
    requires
      var d := s0.buffer.pendings[p].d;
      d.message != "" && Resolve(s0, d.pid, d.time) == Some(i)
    ensures
      var s := s0.(buffer := ForgetPending(s0.buffer, p));
      Finalize(ENV, s0, p, true) == AdoptDenial(ENV, s, p, Some(i), TAG)
  {
    var s := s0.(buffer := ForgetPending(s0.buffer, p));
    assert Resolve(s, s.buffer.pendings[p].d.pid, s.buffer.pendings[p].d.time) == Some(i);
  }

  /** Of the state only the denial keys, the denial row and the session change afterwards. */
  lemma AttributedAfterJoin(s: State, p: nat, i: nat, r: nat)
    requires WF(s) && p < |s.buffer.pendings| && i < |s.graph.arena| && r < |s.graph.runs|
    ensures
      var s1 := s.(graph := Join(s.graph, i, r));
      s1.graph.arena[i].run.Some? &&
      var s' := Attribute(ENV, s1, p, i);
      && s'.watermark == s.watermark && s'.index == s.index && s'.caches == s.caches
      && |s'.graph.runs| == |s.graph.runs| && (forall k | 0 <= k < |s.graph.runs| :: s'.graph.runs[k].kind == s.graph.runs[k].kind)
      && |s'.graph.arena| == |s.graph.arena| && s'.graph.db.processes == s1.graph.db.processes
      && (forall k | 0 <= k < |s.graph.arena| :: s'.graph.arena[k] == s1.graph.arena[k].(denialKeys := s'.graph.arena[k].denialKeys))
  {
  }

  lemma AdoptsFirst(s: State, d: Denial)
    requires WF(s) && s.graph.runs == [] && s.caches.adopted == map[]
    ensures
      var s1 := Adopt(s, TAG, d);
      && s1.watermark == s.watermark && s1.index == s.index && |s1.graph.runs| == 1 && s1.graph.runs[0].kind == Adopted
      && AdoptionKey(TAG) in s1.caches.adopted && s1.caches.adopted[AdoptionKey(TAG)] == 0
  {
  }

  /** What a decision leaves of the kin: runs and rows of images may change, and denial keys. */
  predicate OnlyMembership(s: State, s': State) {
    && s'.watermark == s.watermark && s'.index == s.index && |s.graph.arena| == 2 && |s'.graph.arena| == 2
    && forall k | 0 <= k < 2 ::
         var a, b := s.graph.arena[k], s'.graph.arena[k];
         b == a.(run := b.run, rowID := b.rowID, denialKeys := b.denialKeys)
  }

  lemma KinStay(s: State, s': State, cutoff: Time)
    requires Kin(s) && WF(s') && OnlyMembership(s, s'.(index := s.index))
    requires s'.index == EvictIndex(s'.graph.arena, s.index, cutoff)
    ensures Kin(s')
  {
    assert Retained(s'.graph.arena, [0], cutoff) == [0] && Retained(s'.graph.arena, [1], cutoff) == [1] by {
      assert [0][..0] == [] && [1][..0] == [];
    }
  }

  /** The child is in adopted run 0 without a link, the parent is outside. */
  predicate ChildInside(s: State)
    requires WF(s)
  {
    && |s.graph.arena| == 2 && |s.graph.runs| == 1 && s.graph.runs[0].kind == Adopted
    && AdoptionKey(TAG) in s.caches.adopted && s.caches.adopted[AdoptionKey(TAG)] == 0
    && s.graph.arena[0].run.None? && s.graph.arena[1].run == Some(0)
    && s.graph.db.processes[s.graph.arena[1].rowID].parent.None?
  }

  /** The child is in the adopted run, the parent is not. */
  predicate ChildAdopted(s: State) {
    Kin(s) && ChildInside(s)
  }

  lemma ChildUnlinked(g: Graph)
    requires GraphOk(g) && |g.arena| == 2 && |g.runs| == 1
    requires g.arena[0].run.None? && g.arena[1].run.None? && g.arena[1].parent == Some(0)
    ensures
      var g' := Join(g, 1, 0);
      && g'.arena[0] == g.arena[0] && g'.arena[1].run == Some(0) && g'.db.processes[g'.arena[1].rowID].parent.None?
      && g'.arena[1] == g.arena[1].(run := Some(0), rowID := g'.arena[1].rowID)
  {
  }

  lemma ChildDenialAdopted(s: State, p: nat)
    requires KinOutside(s) && p < |s.buffer.pendings| && s.buffer.pendings[p].d == TAGGED_CHILD
    ensures
      var s' := AdoptDenial(ENV, s, p, Some(1), TAG);
      OnlyMembership(s, s') && ChildInside(s')
  {
    AdoptsFirst(s, TAGGED_CHILD);
    ChildUnlinked(Adopt(s, TAG, TAGGED_CHILD).graph);
    AttributedAfterJoin(Adopt(s, TAG, TAGGED_CHILD), p, 1, 0);
  }

  lemma ChildFinalized(s: State, p: nat)
    requires KinOutside(s) && WaitsAlone(s.buffer, p, TAGGED_CHILD)
    ensures OnlyMembership(s, Finalize(ENV, s, p, true)) && ChildInside(Finalize(ENV, s, p, true))
  {
    assert Resolve(s, 2, 30 * MS) == Some(1);
    FinalizeAdopts(s, p, 1);
    ChildDenialAdopted(s.(buffer := ForgetPending(s.buffer, p)), p);
  }

  lemma ChildIsAdopted(s: State, p: nat)
    requires KinOutside(s) && WaitsAlone(s.buffer, p, TAGGED_CHILD)
    ensures ChildAdopted(Tick(ENV, s, 1000 * MS, [2]))
  {
    ChildFinalized(s, p);
    TickFinalizes(s, p, TAGGED_CHILD);
    KinStay(s, Tick(ENV, s, 1000 * MS, [2]), 1000 * MS - Retention(ENV));
  }

  lemma ParentIsAdopted(s: State, p: nat)
    requires ChildAdopted(s) && WaitsAlone(s.buffer, p, TAGGED_PARENT)
    ensures UnlinkedKin(Tick(ENV, s, 1000 * MS, [1]).graph)
  {
    assert Resolve(s, 1, 30 * MS) == Some(0);
    FinalizeAdopts(s, p, 0);
    AttributedAfterJoin(s.(buffer := ForgetPending(s.buffer, p)), p, 0, 0);
    TickFinalizes(s, p, TAGGED_PARENT);
  }

  /** Parent and child are in the same adopted run, but the child's row names no parent. */
  predicate UnlinkedKin(g: Graph) {
    && GraphOk(g) && |g.arena| == 2 && |g.runs| == 1 && g.runs[0].kind == Adopted
    && g.arena[1].parent == Some(0) && g.arena[0].run == Some(0) && g.arena[1].run == Some(0)
    && g.db.processes[g.arena[1].rowID].parent.None?
  }

  lemma ChildAdoptedReached() returns (steps: seq<Step>, s: State)
    ensures Reaches(ENV, steps, s) && ChildAdopted(s) && s.buffer.pendingByPID.Keys == {}
  {
    var s1: State;
    steps, s := KinReached();
    assert Resolve(s, 2, 30 * MS) == Some(1);
    steps, s1 := WaitAndTick(steps, s, TAGGED_CHILD);
    ChildIsAdopted(s1, |s.buffer.pendings|);
    s := Tick(ENV, s1, 1000 * MS, [2]);
  }

  /** A process that predates the watch forks a child; a tagged denial of the child adopts it, and later one
    of the parent adopts the parent into the same run. */
  lemma AdoptedParentCanBeMissing() returns (steps: seq<Step>, s: State)
    ensures Reaches(ENV, steps, s) && UnlinkedKin(s.graph)
  {
    var s1: State;
    steps, s := ChildAdoptedReached();
    assert Resolve(s, 1, 30 * MS) == Some(0);
    steps, s1 := WaitAndTick(steps, s, TAGGED_PARENT);
    ParentIsAdopted(s1, |s.buffer.pendings|);
    s := Tick(ENV, s1, 1000 * MS, [1]);
  }

  // ---------------------------------------------------------------------------------------------
  // A fork is reported after the exit of its parent

  const SANDBOX := Actor(1, 2, SANDBOX_EXEC_PATH)
  const START := EventAt(Exec, 10 * MS, SHELL, SANDBOX)
  const STOP := EventAt(Exit, 20 * MS, SANDBOX, SANDBOX)
  const LATE_FORK := EventAt(Fork, 20 * MS, SANDBOX, CHILD)

  /** A sandbox-exec image is the only member of its run. */
  predicate SandboxRuns(s: State) {
    && WF(s) && |s.graph.arena| == 2 && SANDBOX.token in s.index.images && s.index.images[SANDBOX.token] == 1
    && CHILD.token !in s.index.images
    && s.graph.arena[1].run == Some(0) && s.graph.arena[1].end.None?
    && |s.graph.runs| == 1 && s.graph.runs[0].kind == SandboxExec && s.graph.runs[0].live == {1}
  }

  lemma SandboxSeen()
    ensures
      var s1 := SeeBoth(INITIAL.(watermark := 10 * MS), START);
      && s1.graph == INITIAL.graph.(arena := [Untracked(SHELL)])
      && s1.index.images[SHELL.token] == 0 && SANDBOX.token !in s1.index.images && CHILD.token !in s1.index.images
  {
  }

  /** The first run of all, with image 1 alone in it. */
  lemma SandboxJoins(g: Graph)
    requires GraphOk(g) && |g.arena| == 2 && g.runs == [] && g.arena[0].run.None? && g.arena[1].run.None? && g.arena[1].end.None?
    ensures
      var g' := FinishExec(ENV, g, START, 1, 0);
      && g'.arena[1].run == Some(0) && g'.arena[1].end.None?
      && |g'.runs| == 1 && g'.runs[0].kind == SandboxExec && g'.runs[0].live == {1}
  {
    var g1 := StartSandboxExecRun(ENV, g, START, None);
    assert g1.runs[0].live == {} && g1.runs[0].kind == SandboxExec;
    assert Join(g1, 1, 0).runs[0].live == {1};
  }

  lemma SandboxStarts()
    ensures SandboxRuns(HandleES(ENV, INITIAL, START))
  {
    SandboxSeen();
    var s1 := SeeBoth(INITIAL.(watermark := 10 * MS), START);
    SandboxJoins(Register(s1, Execed(START, 0, None)).graph);
  }

  /** The sandbox-exec image has exited and its run is over; a fork by it is still to come. */
  ghost predicate SandboxGone(s: State) {
    Inv(s) && |s.graph.runs| == 1 && s.graph.runs[0].kind == SandboxExec && BornLate(s, LATE_FORK, 2, 0)
  }

  lemma SandboxStops(s: State)
    requires Inv(s) && SandboxRuns(s)
    ensures SandboxGone(HandleES(ENV, s, STOP))
  {
    HandleESInv(ENV, s, STOP);
    RunStops(s);
  }

  lemma RunStops(s: State)
    requires SandboxRuns(s)
    ensures
      var s' := HandleES(ENV, s, STOP);
      |s'.graph.runs| == 1 && s'.graph.runs[0].kind == SandboxExec && BornLate(s', LATE_FORK, 2, 0)
  {
  }

  lemma ForkedLate(s: State)
    requires SandboxGone(s)
    ensures
      var g := HandleES(ENV, s, LATE_FORK).graph;
      |g.runs| == 1 && g.runs[0].kind == SandboxExec && Outlives(g, 2, 0)
  {
    EventOutlives(ENV, s, LATE_FORK, 2, 0);
    Decisions.HandleForkCreates(s.(watermark := Later(s.watermark, LATE_FORK.time)), LATE_FORK);
  }

  lemma Reports(steps: seq<Step>, ev: Event) returns (steps': seq<Step>)
    requires Feasible(ENV, steps)
    ensures Feasible(ENV, steps') && After(ENV, steps') == HandleES(ENV, After(ENV, steps), ev)
  {
    steps' := steps + [ProcessEvent(ev)];
    assert steps'[..|steps|] == steps;
  }

  lemma SandboxGoneReached() returns (steps: seq<Step>)
    ensures Feasible(ENV, steps) && SandboxGone(After(ENV, steps))
  {
    steps := Reports([], START);
    InvHolds(ENV, steps);
    SandboxStarts();
    SandboxStops(After(ENV, steps));
    steps := Reports(steps, STOP);
  }

  /** Out of order, the same happens to a sandbox-exec run: its image exits, and so does the run; then a fork
    by that image is reported, and the child joins the run and runs. */
  lemma LateForkRuns() returns (steps: seq<Step>)
    ensures Feasible(ENV, steps)
    ensures
      var g := After(ENV, steps).graph;
      |g.db.runs| == 1 && g.db.runs[0].kind == SandboxExec && RunsOn(g, 0)
  {
    steps := SandboxGoneReached();
    ForkedLate(After(ENV, steps));
    steps := Reports(steps, LATE_FORK);
    var g := After(ENV, steps).graph;
    InvHolds(ENV, steps);
    RunsOnOutlives(g, 0);
    assert GI.RunRowFollows(g.runs[0], g.db.runs[0], 0);
  }
}
