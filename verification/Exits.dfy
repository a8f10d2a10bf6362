/** A sandbox-exec run is marked exited exactly when its last member is gone, at that member's end. */
module Exits {
  import opened Events
  import opened Tables
  import opened Model
  import opened Handlers
  import opened IndexInvariants
  import opened Invariant
  import opened Behaviour
  import opened Traversal
  import opened Membership
  import opened Idle
  import GI = GraphInvariants

  /** A sandbox-exec run is over exactly when nobody in it runs, and its row then records its last end. */
  predicate ExitsAt(run: Run, row: RunRow) {
    run.kind == SandboxExec ==>
      && (run.ended <==> run.live == {})
      && (run.ended ==> row.endedAt == NullTime(Some(run.lastEnd)))
  }

  predicate ExitsOnTime(g: Graph) {
    |g.runs| == |g.db.runs| && forall r | 0 <= r < |g.runs| :: ExitsAt(g.runs[r], g.db.runs[r])
  }

  /** The graph after an operation that touches no sandbox-exec run. */
  predicate LeavesRuns(g: Graph, g': Graph) {
    && |g.runs| == |g.db.runs| <= |g'.runs| == |g'.db.runs|
    && (forall r | 0 <= r < |g.runs| :: g'.runs[r].kind == g.runs[r].kind)
    && (forall r | 0 <= r < |g.runs| && g.runs[r].kind == SandboxExec ::
          g'.runs[r] == g.runs[r].(hasSession := g'.runs[r].hasSession) && g'.db.runs[r].endedAt == g.db.runs[r].endedAt)
    && (forall r | |g.runs| <= r < |g'.runs| :: g'.runs[r].kind != SandboxExec)
  }

  lemma LeavesRunsKeeps(g: Graph, g': Graph)
    requires ExitsOnTime(g) && LeavesRuns(g, g')
    ensures ExitsOnTime(g')
  {
    forall r | 0 <= r < |g'.runs| ensures ExitsAt(g'.runs[r], g'.db.runs[r]) {
      assert r < |g.runs| ==> ExitsAt(g.runs[r], g.db.runs[r]);
    }
  }

  // ---------------------------------------------------------------------------------------------
  // Process events

  /** The ended image leaves its run, which exits if it was the last. */
  lemma EndImageExits(g: Graph, i: nat, end: End)
    requires GraphOk(g) && i < |g.arena| && GI.LiveSets(g.arena, g.runs) && ExitsOnTime(g)
    ensures ExitsOnTime(EndImage(g, i, end))
  {
    var g' := EndImage(g, i, end);
    if g.arena[i].end.None? && g.arena[i].run.Some? {
      assert GI.IsLiveSet(g.arena, g.arena[i].run.value, g.runs[g.arena[i].run.value].live);
    }
    forall r | 0 <= r < |g'.runs| ensures ExitsAt(g'.runs[r], g'.db.runs[r]) {
      assert ExitsAt(g.runs[r], g.db.runs[r]);
    }
  }

  /** A running image joins the run of a running member. */
  lemma JoinExits(g: Graph, i: nat, mate: nat)
    requires GraphOk(g) && GI.LiveSets(g.arena, g.runs) && ExitsOnTime(g)
    requires i < |g.arena| && g.arena[i].run.None? && g.arena[i].end.None?
    requires mate < |g.arena| && g.arena[mate].run.Some? && g.arena[mate].end.None?
    ensures ExitsOnTime(Join(g, i, g.arena[mate].run.value))
  {
    var k := g.arena[mate].run.value;
    var g' := Join(g, i, k);
    assert GI.IsLiveSet(g.arena, k, g.runs[k].live);
    assert i in g'.runs[k].live;
    forall r | 0 <= r < |g'.runs| ensures ExitsAt(g'.runs[r], g'.db.runs[r]) {
      assert ExitsAt(g.runs[r], g.db.runs[r]);
    }
  }

  /** A new sandbox-exec run starts with its sandbox-exec image. */
  lemma StartRunExits(e: Env, g: Graph, ev: Event, i: nat, parent: Option<nat>)
    requires GraphOk(g) && ExitsOnTime(g) && i < |g.arena| && g.arena[i].run.None? && g.arena[i].end.None?
    ensures ExitsOnTime(Join(StartSandboxExecRun(e, g, ev, parent), i, |g.runs|))
  {
    var g' := Join(StartSandboxExecRun(e, g, ev, parent), i, |g.runs|);
    assert i in g'.runs[|g.runs|].live;
    forall r | 0 <= r < |g'.runs| ensures ExitsAt(g'.runs[r], g'.db.runs[r]) {
      assert r < |g.runs| ==> ExitsAt(g.runs[r], g.db.runs[r]);
    }
  }

  lemma FinishExecExits(e: Env, g: Graph, ev: Event, i: nat, actor: nat)
    requires GI.GraphInv(g) && ExitsOnTime(g)
    requires i < |g.arena| && g.arena[i].run.None? && g.arena[i].end.None?
    requires actor < |g.arena| && actor != i && g.arena[actor].end.None?
    ensures ExitsOnTime(FinishExec(e, g, ev, i, actor))
  {
    var g1 := JoinExeced(e, g, ev, i, g.arena[actor].run);
    if ev.target.path == SANDBOX_EXEC_PATH {
      GI.StartSandboxExecRunKeeps(e, g, ev, g.arena[actor].run);
      GI.JoinKeeps(StartSandboxExecRun(e, g, ev, g.arena[actor].run), i, |g.runs|);
      StartRunExits(e, g, ev, i, g.arena[actor].run);
    } else if g.arena[actor].run.Some? {
      GI.JoinKeeps(g, i, g.arena[actor].run.value);
      JoinExits(g, i, actor);
    }
    EndImageExits(g1, actor, End(ev.time, ByExec, None));
  }

  /** The actor of a fork or exec, if it is known, is running. */
  predicate ByRunningActor(s: State, ev: Event)
    requires WF(s)
  {
    (ev.kind == Fork || ev.kind == Exec) && ev.process.token in s.index.images ==>
      s.graph.arena[s.index.images[ev.process.token]].end.None?
  }

  lemma ForkExits(s: State, ev: Event)
    requires Core(s) && ExitsOnTime(s.graph) && ev.kind == Fork && ByRunningActor(s, ev)
    ensures ExitsOnTime(HandleFork(s, ev).graph)
  {
    var s1 := SeeBoth(s, ev);
    SeeBothCore(s, ev);
    if ev.target.token !in s1.index.images {
      var parent := s1.index.images[ev.process.token];
      var img := s1.graph.arena[parent];
      var s2 := Register(s1, Forked(ev, parent, img.args, img.cwd));
      RegisterCore(s1, Forked(ev, parent, img.args, img.cwd));
      if img.run.Some? {
        JoinExits(s2.graph, |s1.graph.arena|, parent);
      }
    }
  }

  lemma ExecExits(e: Env, s: State, ev: Event)
    requires Core(s) && ExitsOnTime(s.graph) && ev.kind == Exec && ByRunningActor(s, ev)
    ensures ExitsOnTime(HandleExec(e, s, ev).graph)
  {
    var s1 := SeeBoth(s, ev);
    SeeBothCore(s, ev);
    if ev.target.token !in s1.index.images {
      var actor := s1.index.images[ev.process.token];
      var img := Execed(ev, actor, s1.graph.arena[actor].parent);
      RegisterCore(s1, img);
      FinishExecExits(e, Register(s1, img).graph, ev, |s1.graph.arena|, actor);
    }
  }

  lemma EventExits(e: Env, s: State, ev: Event)
    requires Core(s) && ExitsOnTime(s.graph) && ByRunningActor(s, ev)
    ensures ExitsOnTime(HandleES(e, s, ev).graph)
  {
    var s1 := s.(watermark := Later(s.watermark, ev.time));
    match ev.kind {
      case Fork => ForkExits(s1, ev);
      case Exec => ExecExits(e, s1, ev);
      case Exit =>
        if ev.process.token in s.index.images {
          EndImageExits(s.graph, s.index.images[ev.process.token], End(ev.time, ByExit, Some(ev.exitStatus)));
        }
      case OtherKind =>
    }
  }

  // ---------------------------------------------------------------------------------------------
  // Decisions on denials do not touch sandbox-exec runs

  lemma AttributeLeaves(e: Env, s: State, p: nat, i: nat)
    requires WF(s) && p < |s.buffer.pendings| && i < |s.graph.arena| && s.graph.arena[i].run.Some?
    ensures LeavesRuns(s.graph, Attribute(e, s, p, i).graph)
  {
  }

  lemma AttributeExits(e: Env, s: State, p: nat, i: nat)
    requires WF(s) && p < |s.buffer.pendings| && i < |s.graph.arena| && s.graph.arena[i].run.Some?
    requires ExitsOnTime(s.graph)
    ensures ExitsOnTime(Attribute(e, s, p, i).graph)
  {
    AttributeLeaves(e, s, p, i);
    LeavesRunsKeeps(s.graph, Attribute(e, s, p, i).graph);
  }

  lemma JoinOtherExits(g: Graph, i: nat, r: nat)
    requires GraphOk(g) && ExitsOnTime(g) && i < |g.arena| && r < |g.runs| && g.runs[r].kind != SandboxExec
    ensures ExitsOnTime(Join(g, i, r))
  {
    LeavesRunsKeeps(g, Join(g, i, r));
  }

  lemma AdoptExits(s: State, m: Match, d: Denial)
    requires WF(s) && AdoptedKinds(s.caches, s.graph.runs) && ExitsOnTime(s.graph)
    ensures ExitsOnTime(Adopt(s, m, d).graph) && AdoptedKinds(Adopt(s, m, d).caches, Adopt(s, m, d).graph.runs)
  {
    LeavesRunsKeeps(s.graph, Adopt(s, m, d).graph);
  }

  lemma AdoptDenialExits(e: Env, s: State, p: nat, i: Option<nat>, m: Match)
    requires WF(s) && AdoptedKinds(s.caches, s.graph.runs) && ExitsOnTime(s.graph)
    requires p < |s.buffer.pendings| && (i.Some? ==> i.value < |s.graph.arena|)
    ensures ExitsOnTime(AdoptDenial(e, s, p, i, m).graph)
  {
    var d := s.buffer.pendings[p].d;
    var s1 := Adopt(s, m, d);
    var r := s1.caches.adopted[AdoptionKey(m)];
    AdoptExits(s, m, d);
    var k := if i.Some? then i.value else |s1.graph.arena|;
    var s2 := if i.Some? then s1 else Register(s1, Stub(d.pid));
    JoinOtherExits(s2.graph, k, r);
    AttributeExits(e, s2.(graph := Join(s2.graph, k, r)), p, k);
  }

  lemma {:induction false} JoinAllLeaves(g: Graph, path: seq<nat>, r: nat)
    requires GraphOk(g) && InRange(path, |g.arena|) && r < |g.runs| && g.runs[r].kind != SandboxExec
    ensures LeavesRuns(g, JoinAll(g, path, r))
    decreases |path|
  {
    if path != [] {
      JoinAllLeaves(g, path[..|path| - 1], r);
    }
  }

  lemma {:induction false} JoinedPathStays(g: Graph, path: seq<nat>, r: nat)
    requires GraphOk(g) && InRange(path, |g.arena|) && r < |g.runs|
    requires forall k | 0 <= k < |path| :: g.arena[path[k]].run.Some?
    ensures JoinAll(g, path, r) == g
    decreases |path|
  {
    if path != [] {
      JoinedPathStays(g, path[..|path| - 1], r);
    }
  }

  lemma JoinPathExits(g: Graph, path: seq<nat>, r: nat)
    requires GraphOk(g) && ExitsOnTime(g) && InRange(path, |g.arena|) && r < |g.runs| && g.runs[r].kind != SandboxExec
    ensures ExitsOnTime(MaybeEndRun(JoinAll(g, path, r), r))
  {
    JoinAllLeaves(g, path, r);
    LeavesRunsKeeps(g, JoinAll(g, path, r));
    LeavesRunsKeeps(JoinAll(g, path, r), MaybeEndRun(JoinAll(g, path, r), r));
  }

  lemma JoinCandidateExits(g: Graph, i: nat)
    requires GraphOk(g) && MemberInv(g) && ExitsOnTime(g) && i < |g.arena| && Eligible(g.arena, i)
    ensures ExitsOnTime(JoinCandidate(g, i))
  {
    var root := g.arena[RootOf(g.arena, i)];
    var path := PathTo(g.arena, i);
    if root.run.None? {
      var g1 := AddRun(g, SandboxInitRow(root), false);
      LeavesRunsKeeps(g, g1);
      JoinPathExits(g1, path, |g.runs|);
    } else if InKind(g, RootOf(g.arena, i), SandboxExec) {
      CandidatePathJoined(g, i);
      JoinedPathStays(g, path, root.run.value);
      assert ExitsAt(g.runs[root.run.value], g.db.runs[root.run.value]);
    } else {
      JoinPathExits(g, path, root.run.value);
    }
  }

  lemma FinalizeExits(e: Env, s0: State, p: nat, classify: bool)
    requires WF(s0) && AdoptedKinds(s0.caches, s0.graph.runs) && MemberInv(s0.graph) && ExitsOnTime(s0.graph)
    requires p < |s0.buffer.pendings|
    ensures ExitsOnTime(Finalize(e, s0, p, classify).graph)
  {
    var s := s0.(buffer := ForgetPending(s0.buffer, p));
    var d := s.buffer.pendings[p].d;
    var i := Resolve(s, d.pid, d.time);
    var m := Detect(e, d.message);
    if i.Some? && s.graph.arena[i.value].run.Some? {
      AttributeExits(e, s, p, i.value);
    } else if m.Some? && classify {
      AdoptDenialExits(e, s, p, i, m.value);
    } else if i.Some? && classify && e.entitlements.Some? {
      if IsCandidate(e, s, i.value) {
        JoinCandidateExits(s.graph, i.value);
        AttributeExits(e, s.(caches := CheckedEntitlement(e, s, i.value), graph := JoinCandidate(s.graph, i.value)), p, i.value);
      }
    }
  }

  lemma TickOneExits(e: Env, s: State, p: nat, now: Time)
    requires Core(s) && MemberInv(s.graph) && ExitsOnTime(s.graph) && p < |s.buffer.pendings|
    ensures ExitsOnTime(TickOne(e, s, p, now).graph)
  {
    match Judge(e, s, p, now) {
      case FinalizeFully => FinalizeExits(e, s, p, true);
      case FinalizeLagging => FinalizeExits(e, s, p, false);
      case AttributeTo(i) => AttributeExits(e, s, p, i);
      case Keep =>
    }
  }

  lemma TickExits(e: Env, s: State, now: Time, order: seq<int>)
    requires Inv(s) && MemberInv(s.graph) && ExitsOnTime(s.graph)
    ensures ExitsOnTime(Tick(e, s, now, order).graph)
  {
    var Q := (t: Time, x: Index, pendings: seq<Pending>, g: Graph) => MemberInv(g) && ExitsOnTime(g);
    forall s1: State, p: nat | Core(s1) && Undecided(s1, p) && Holds(Q, s1) ensures Holds(Q, TickOne(e, s1, p, now)) {
      Membership.TickOneKeeps(e, s1, p, now);
      TickOneExits(e, s1, p, now);
    }
    TickStable(e, s, order, now, Q);
  }

  lemma HandleDenialExits(e: Env, s: State, d: Denial, now: Time)
    requires WF(s) && ExitsOnTime(s.graph)
    ensures ExitsOnTime(HandleDenial(e, s, d, now).graph)
  {
    if RouteOf(s, d).NoRow? {
      var i := Attributable(s, d);
      if i.Some? {
        AttributeExits(e, s.(buffer := NewPending(s.buffer, d, now)), |s.buffer.pendings|, i.value);
      }
    }
  }

  // ---------------------------------------------------------------------------------------------
  // Whole runs

  ghost predicate ActorsRun(e: Env, steps: seq<Step>)
    requires Feasible(e, steps)
    decreases |steps|
  {
    steps != [] ==>
      && ActorsRun(e, steps[..|steps| - 1])
      && (steps[|steps| - 1].ProcessEvent? ==> ByRunningActor(After(e, steps[..|steps| - 1]), steps[|steps| - 1].ev))
  }

  lemma StepExits(e: Env, s: State, step: Step)
    requires Inv(s) && MemberInv(s.graph) && ExitsOnTime(s.graph) && (step.ProcessEvent? ==> ByRunningActor(s, step.ev))
    ensures ExitsOnTime(Apply(e, s, step).graph)
  {
    match step {
      case ProcessEvent(ev) => EventExits(e, s, ev);
      case DenialLine(d, now) => HandleDenialExits(e, s, d, now);
      case TickAt(now, order) => TickExits(e, s, now, order);
    }
  }

  lemma {:induction false} ExitsHold(e: Env, steps: seq<Step>)
    requires Feasible(e, steps) && ActorsRun(e, steps)
    ensures ExitsOnTime(After(e, steps).graph)
    decreases |steps|
  {
    if steps != [] {
      var init := steps[..|steps| - 1];
      ExitsHold(e, init);
      InvHolds(e, init);
      MemberInvHolds(e, init);
      StepExits(e, After(e, init), steps[|steps| - 1]);
    }
  }

  /** When only running processes fork and exec: a sandbox-exec run is exited if and only if none of
    its images runs, and its recorded end is then the latest end of its images. */
  lemma RunsExitWithTheirLastImage(e: Env, steps: seq<Step>, r: nat)
    requires Feasible(e, steps) && ActorsRun(e, steps)
    requires r < |After(e, steps).graph.runs| && After(e, steps).graph.runs[r].kind == SandboxExec
    ensures
      var g := After(e, steps).graph;
      && r < |g.db.runs|
      && (g.db.runs[r].status == Exited <==> !HasRunning(g.arena, r))
      && (g.db.runs[r].status == Exited ==>
            && g.db.runs[r].endedAt == NullTime(Some(g.runs[r].lastEnd))
            && GI.IsLastEnd(g.arena, r, g.runs[r].lastEnd))
  {
    var g := After(e, steps).graph;
    InvHolds(e, steps);
    ExitsHold(e, steps);
    assert ExitsAt(g.runs[r], g.db.runs[r]);
    assert GI.RunRowFollows(g.runs[r], g.db.runs[r], r);
    assert GI.IsLastEnd(g.arena, r, g.runs[r].lastEnd);
    RunningIsLive(g, r);
  }

  // ---------------------------------------------------------------------------------------------
  // What holds without any order of events, and what does not hold for sandbox-init runs

  lemma ReplacedMemberKeepsRuns(e: Env, g: Graph, ev: Event, i: nat, actor: nat)
    requires GraphOk(g) && i < |g.arena| && actor < |g.arena| && i != actor
    requires g.arena[i].run.None? && g.arena[i].end.None? && ev.target.path != SANDBOX_EXEC_PATH
    ensures FinishExec(e, g, ev, i, actor).db.runs == g.db.runs
    ensures |FinishExec(e, g, ev, i, actor).runs| == |g.runs|
  {
    if g.arena[actor].run.Some? {
      var r := g.arena[actor].run.value;
      var g1 := Join(g, i, r);
      assert i in EndMember(g1, actor, End(ev.time, ByExec, None)).runs[r].live;
    }
  }

  /** An exec of anything but sandbox-exec neither starts nor ends a run, whatever came before. */
  lemma OrdinaryExecKeepsRuns(e: Env, s: State, ev: Event)
    requires WF(s) && ev.kind == Exec && ev.target.path != SANDBOX_EXEC_PATH
    ensures HandleES(e, s, ev).graph.db.runs == s.graph.db.runs
  {
    var s0 := s.(watermark := Later(s.watermark, ev.time));
    var s1 := SeeBoth(s0, ev);
    if ev.target.token !in s1.index.images {
      var actor := s1.index.images[ev.process.token];
      var img := Execed(ev, actor, s1.graph.arena[actor].parent);
      ReplacedMemberKeepsRuns(e, Register(s1, img).graph, ev, |s1.graph.arena|, actor);
    }
  }

  lemma {:induction false} JoinAllLive(g: Graph, path: seq<nat>, r: nat)
    requires GraphOk(g) && InRange(path, |g.arena|) && r < |g.runs|
    ensures
      var g' := JoinAll(g, path, r);
      && g'.runs[r].ended == g.runs[r].ended
      && (forall i :: i in g'.runs[r].live <==> i in g.runs[r].live || (i in path && g.arena[i].run.None? && g.arena[i].end.None?))
      && (forall i | 0 <= i < |g.arena| ::
            g'.arena[i].end == g.arena[i].end && (g'.arena[i].run.None? <==> g.arena[i].run.None? && i !in path))
    decreases |path|
  {
    if path != [] {
      JoinAllLive(g, path[..|path| - 1], r);
      assert path == path[..|path| - 1] + [path[|path| - 1]];
    }
  }

  /** A run that is over stays over when a candidate joins it, and its row stays as it is. Its running
    members are then the old ones, and those of the candidate's chain that ran and had joined no run. */
  lemma CandidateJoinsEndedRun(g: Graph, i: nat)
    requires GraphOk(g) && i < |g.arena| && Eligible(g.arena, i)
    requires
      var root := g.arena[RootOf(g.arena, i)];
      root.run.Some? && g.runs[root.run.value].ended
    ensures
      var r := g.arena[RootOf(g.arena, i)].run.value;
      var g' := JoinCandidate(g, i);
      && g'.runs[r].ended && g'.db.runs == g.db.runs
      && (forall j :: j in g'.runs[r].live <==>
            j in g.runs[r].live || (j in PathTo(g.arena, i) && g.arena[j].run.None? && g.arena[j].end.None?))
  {
    JoinAllLive(g, PathTo(g.arena, i), g.arena[RootOf(g.arena, i)].run.value);
  }
}
