/** Images that run although their run is exited. A visit of a buffered denial makes an image one of them
  exactly if it joins the fork chain of a candidate to a run that is over by then, which shows before the
  visit. As long as only running processes act there is no other way, but by descent from such images. */
module Latecomers {
  import opened Events
  import opened Tables
  import opened Model
  import opened Handlers
  import opened IndexInvariants
  import opened Invariant
  import opened Behaviour
  import opened Traversal
  import opened Membership
  import opened Idle
  import opened Exits
  import opened Chains
  import BI = BufferInvariants
  import GI = GraphInvariants

  /** Image i runs in run r, which is over. */
  predicate Outlives(g: Graph, i: nat, r: nat) {
    && i < |g.arena| && r < |g.runs|
    && g.arena[i].run == Some(r) && g.arena[i].end.None?
    && g.runs[r].ended
  }

  ghost predicate NoneMore(g: Graph, g': Graph) {
    forall i: nat, r: nat {:trigger Outlives(g', i, r)} :: Outlives(g', i, r) ==> Outlives(g, i, r)
  }

  /** All but image i, which runs no more. */
  ghost predicate AllBut(g: Graph, g': Graph, i: nat) {
    forall j: nat, r: nat {:trigger Outlives(g', j, r)} :: Outlives(g', j, r) <==> Outlives(g, j, r) && j != i
  }

  ghost predicate SameOutlivers(g: Graph, g': Graph) {
    forall i: nat, r: nat {:trigger Outlives(g', i, r)} :: Outlives(g', i, r) <==> Outlives(g, i, r)
  }

  predicate Unjoined(g: Graph, i: nat) {
    i < |g.arena| && g.arena[i].run.None? && g.arena[i].end.None?
  }

  // ---------------------------------------------------------------------------------------------
  // Operations on the graph

  lemma MaybeEndRunOutlives(g: Graph, r: nat)
    requires GraphOk(g) && GI.LiveSets(g.arena, g.runs) && r < |g.runs|
    ensures SameOutlivers(g, MaybeEndRun(g, r))
  {
    assert GI.IsLiveSet(g.arena, r, g.runs[r].live);
  }

  lemma EndMemberOutlives(g: Graph, i: nat, end: End)
    requires GraphOk(g) && i < |g.arena| && g.arena[i].end.None?
    ensures AllBut(g, EndMember(g, i, end), i)
  {
  }

  lemma EndImageOutlives(g: Graph, i: nat, end: End)
    requires GI.GraphInv(g) && i < |g.arena|
    ensures AllBut(g, EndImage(g, i, end), i)
  {
    if g.arena[i].end.None? {
      EndMemberOutlives(g, i, end);
      GI.EndMemberKeepsRuns(g, i, end);
      if g.arena[i].run.Some? {
        MaybeEndRunOutlives(EndMember(g, i, end), g.arena[i].run.value);
      }
    }
  }

  /** Only an unjoined, running image that joins a run which is over comes to outlive it. */
  lemma JoinOutlives(g: Graph, i: nat, r: nat)
    requires GraphOk(g) && i < |g.arena| && r < |g.runs|
    ensures forall j: nat, x: nat {:trigger Outlives(Join(g, i, r), j, x)} ::
      Outlives(Join(g, i, r), j, x) <==> Outlives(g, j, x) || (j == i && x == r && g.runs[r].ended && Unjoined(g, i))
  {
  }

  lemma StartRunOutlives(e: Env, g: Graph, ev: Event, parent: Option<nat>)
    requires GraphOk(g)
    ensures SameOutlivers(g, StartSandboxExecRun(e, g, ev, parent)) && !StartSandboxExecRun(e, g, ev, parent).runs[|g.runs|].ended
  {
  }

  lemma RegisterOutlives(s: State, img: Image)
    requires WF(s) && FreshImage(img, |s.graph.arena|)
    ensures SameOutlivers(s.graph, Register(s, img).graph)
  {
  }

  // ---------------------------------------------------------------------------------------------
  // Process events

  /** Whatever outlives its run now did so before, or was forked or exec'd from an image that did. */
  ghost predicate Descends(g: Graph, g': Graph) {
    forall i: nat, r: nat {:trigger Outlives(g', i, r)} ::
      Outlives(g', i, r) ==> Outlives(g, i, r) || (Origin(g'.arena[i]).Some? && Outlives(g, Origin(g'.arena[i]).value, r))
  }

  /** An actor that is in a run at all is running. */
  lemma SeeBothOutlives(s: State, ev: Event)
    requires WF(s) && (ev.kind == Fork || ev.kind == Exec) && ByRunningActor(s, ev)
    ensures
      var s1 := SeeBoth(s, ev);
      var actor := s1.graph.arena[s1.index.images[ev.process.token]];
      NoneMore(s.graph, s1.graph) && (actor.run.Some? ==> actor.end.None?)
  {
    if ev.process.token !in s.index.images {
      RegisterOutlives(s, Untracked(ev.process));
    }
  }

  /** A new image joins the run of the running image it comes from. */
  lemma OffspringOutlives(g: Graph, i: nat, origin: nat)
    requires GraphOk(g) && i < |g.arena| && origin < |g.arena| && Origin(g.arena[i]) == Some(origin)
    requires g.arena[origin].run.Some? && g.arena[origin].end.None?
    ensures Descends(g, Join(g, i, g.arena[origin].run.value))
  {
    JoinOutlives(g, i, g.arena[origin].run.value);
  }

  lemma NoneMoreDescends(g: Graph, g1: Graph, g2: Graph)
    requires NoneMore(g, g1) && Descends(g1, g2)
    ensures Descends(g, g2)
  {
  }

  lemma DescendsNoneMore(g: Graph, g1: Graph, g2: Graph)
    requires Descends(g, g1) && NoneMore(g1, g2) && Grows(g1.arena, g2.arena)
    ensures Descends(g, g2)
  {
    forall i: nat, r: nat | Outlives(g2, i, r)
      ensures Outlives(g, i, r) || (Origin(g2.arena[i]).Some? && Outlives(g, Origin(g2.arena[i]).value, r))
    {
      assert Outlives(g1, i, r);
      assert GrowsAt(g1.arena[i], g2.arena[i]);
    }
  }

  lemma ForkDescends(s: State, ev: Event)
    requires WF(s) && ev.kind == Fork && ByRunningActor(s, ev)
    ensures Descends(s.graph, HandleFork(s, ev).graph)
  {
    var s1 := SeeBoth(s, ev);
    SeeBothOutlives(s, ev);
    if ev.target.token !in s1.index.images {
      var parent := s1.index.images[ev.process.token];
      var img := s1.graph.arena[parent];
      var child := Forked(ev, parent, img.args, img.cwd);
      RegisterOutlives(s1, child);
      if img.run.Some? {
        var g2 := Register(s1, child).graph;
        OffspringOutlives(g2, |s1.graph.arena|, parent);
        NoneMoreDescends(s.graph, g2, Join(g2, |s1.graph.arena|, img.run.value));
      }
    }
  }

  lemma JoinExecedDescends(e: Env, g: Graph, ev: Event, i: nat, actor: nat)
    requires GI.GraphInv(g) && i < |g.arena| && actor < |g.arena| && Origin(g.arena[i]) == Some(actor)
    requires g.arena[actor].run.Some? ==> g.arena[actor].end.None?
    ensures
      var g1 := JoinExeced(e, g, ev, i, g.arena[actor].run);
      Descends(g, g1) && GI.GraphInv(g1)
  {
    var run := g.arena[actor].run;
    if ev.target.path == SANDBOX_EXEC_PATH {
      StartRunOutlives(e, g, ev, run);
      JoinOutlives(StartSandboxExecRun(e, g, ev, run), i, |g.runs|);
      GI.StartSandboxExecRunKeeps(e, g, ev, run);
      GI.JoinKeeps(StartSandboxExecRun(e, g, ev, run), i, |g.runs|);
    } else if run.Some? {
      OffspringOutlives(g, i, actor);
      GI.JoinKeeps(g, i, run.value);
    }
  }

  lemma FinishExecDescends(e: Env, g: Graph, ev: Event, i: nat, actor: nat)
    requires GI.GraphInv(g) && i < |g.arena| && actor < |g.arena| && Origin(g.arena[i]) == Some(actor)
    requires g.arena[actor].run.Some? ==> g.arena[actor].end.None?
    ensures Descends(g, FinishExec(e, g, ev, i, actor))
  {
    var g1 := JoinExeced(e, g, ev, i, g.arena[actor].run);
    JoinExecedDescends(e, g, ev, i, actor);
    EndImageOutlives(g1, actor, End(ev.time, ByExec, None));
    Chains.EndImageGrows(g1, actor, End(ev.time, ByExec, None));
    DescendsNoneMore(g, g1, FinishExec(e, g, ev, i, actor));
  }

  lemma ExecDescends(e: Env, s: State, ev: Event)
    requires Core(s) && ev.kind == Exec && ByRunningActor(s, ev)
    ensures Descends(s.graph, HandleExec(e, s, ev).graph)
  {
    var s1 := SeeBoth(s, ev);
    SeeBothOutlives(s, ev);
    SeeBothCore(s, ev);
    if ev.target.token !in s1.index.images {
      var actor := s1.index.images[ev.process.token];
      var img := Execed(ev, actor, s1.graph.arena[actor].parent);
      var g2 := Register(s1, img).graph;
      RegisterOutlives(s1, img);
      GI.RegisterKeeps(s1.graph, img);
      FinishExecDescends(e, g2, ev, |s1.graph.arena|, actor);
      NoneMoreDescends(s.graph, g2, FinishExec(e, g2, ev, |s1.graph.arena|, actor));
    }
  }

  lemma EventDescends(e: Env, s: State, ev: Event)
    requires Core(s) && ByRunningActor(s, ev)
    ensures Descends(s.graph, HandleES(e, s, ev).graph)
  {
    var s1 := s.(watermark := Later(s.watermark, ev.time));
    match ev.kind {
      case Fork => ForkDescends(s1, ev);
      case Exec => ExecDescends(e, s1, ev);
      case Exit =>
        if ev.process.token in s.index.images {
          EndImageOutlives(s.graph, s.index.images[ev.process.token], End(ev.time, ByExit, Some(ev.exitStatus)));
        }
      case OtherKind =>
    }
  }

  // ---------------------------------------------------------------------------------------------
  // Ticks

  lemma AttributeOutlives(e: Env, s: State, p: nat, i: nat)
    requires WF(s) && p < |s.buffer.pendings| && i < |s.graph.arena| && s.graph.arena[i].run.Some?
    ensures SameOutlivers(s.graph, Attribute(e, s, p, i).graph)
  {
  }

  predicate AdoptedStayOpen(runs: seq<Run>) {
    forall r | 0 <= r < |runs| :: runs[r].kind == Adopted ==> !runs[r].ended
  }

  lemma AdoptedAreOpen(g: Graph)
    requires GI.RunRows(g.runs, g.db.runs)
    ensures AdoptedStayOpen(g.runs)
  {
    forall r | 0 <= r < |g.runs| ensures g.runs[r].kind == Adopted ==> !g.runs[r].ended {
      assert GI.RunRowFollows(g.runs[r], g.db.runs[r], r);
    }
  }

  lemma AdoptOutlives(s: State, m: Match, d: Denial)
    requires WF(s) && AdoptedKinds(s.caches, s.graph.runs) && AdoptedStayOpen(s.graph.runs)
    ensures SameOutlivers(s.graph, Adopt(s, m, d).graph) && !Adopt(s, m, d).graph.runs[Adopt(s, m, d).caches.adopted[AdoptionKey(m)]].ended
  {
  }

  lemma AdoptDenialOutlives(e: Env, s: State, p: nat, i: Option<nat>, m: Match)
    requires Core(s) && p < |s.buffer.pendings| && (i.Some? ==> i.value < |s.graph.arena|)
    ensures SameOutlivers(s.graph, AdoptDenial(e, s, p, i, m).graph)
  {
    var d := s.buffer.pendings[p].d;
    var s1 := Adopt(s, m, d);
    var r := s1.caches.adopted[AdoptionKey(m)];
    AdoptedAreOpen(s.graph);
    AdoptOutlives(s, m, d);
    var k := if i.Some? then i.value else |s1.graph.arena|;
    var s2 := if i.Some? then s1 else Register(s1, Stub(d.pid));
    if i.None? {
      RegisterOutlives(s1, Stub(d.pid));
    }
    JoinOpenOutlives(e, s2, p, k, r);
  }

  lemma JoinOpenOutlives(e: Env, s: State, p: nat, i: nat, r: nat)
    requires WF(s) && p < |s.buffer.pendings| && i < |s.graph.arena| && r < |s.graph.runs| && !s.graph.runs[r].ended
    ensures
      var s1 := s.(graph := Join(s.graph, i, r));
      s1.graph.arena[i].run.Some? && SameOutlivers(s.graph, Attribute(e, s1, p, i).graph)
  {
    JoinOutlives(s.graph, i, r);
    AttributeOutlives(e, s.(graph := Join(s.graph, i, r)), p, i);
  }

  lemma {:induction false} JoinAllOutlives(g: Graph, path: seq<nat>, r: nat)
    requires GraphOk(g) && InRange(path, |g.arena|) && r < |g.runs|
    ensures forall j: nat, x: nat {:trigger Outlives(JoinAll(g, path, r), j, x)} ::
      Outlives(JoinAll(g, path, r), j, x) <==> Outlives(g, j, x) || (j in path && x == r && g.runs[r].ended && Unjoined(g, j))
    decreases |path|
  {
    if path != [] {
      var init, last := path[..|path| - 1], path[|path| - 1];
      var g1 := JoinAll(g, init, r);
      JoinAllOutlives(g, init, r);
      JoinAllLive(g, init, r);
      JoinOutlives(g1, last, r);
      assert path == init + [last];
    }
  }

  /** Joining the candidate i puts image j into run r, which is over: j is an unjoined, running image of the
    fork chain from a member of r to i. */
  predicate ChainJoins(g: Graph, i: nat, j: nat, r: nat)
    requires EdgesOk(g.arena) && i < |g.arena|
  {
    && Eligible(g.arena, i) && g.arena[RootOf(g.arena, i)].run == Some(r)
    && r < |g.runs| && g.runs[r].ended
    && j in PathTo(g.arena, i) && Unjoined(g, j)
  }

  /** A path joins run r, which then ends if nobody in it runs. */
  lemma JoinPathOutlives(g: Graph, path: seq<nat>, r: nat)
    requires GI.GraphInv(g) && InRange(path, |g.arena|) && r < |g.runs|
    ensures forall j: nat, x: nat {:trigger Outlives(MaybeEndRun(JoinAll(g, path, r), r), j, x)} ::
      Outlives(MaybeEndRun(JoinAll(g, path, r), r), j, x) <==>
        Outlives(g, j, x) || (j in path && x == r && g.runs[r].ended && Unjoined(g, j))
  {
    GI.JoinAllKeeps(g, path, r);
    MaybeEndRunOutlives(JoinAll(g, path, r), r);
    JoinAllOutlives(g, path, r);
  }

  lemma JoinCandidateOutlives(g: Graph, i: nat, j: nat, x: nat)
    requires GI.GraphInv(g) && i < |g.arena| && Eligible(g.arena, i)
    ensures Outlives(JoinCandidate(g, i), j, x) <==> Outlives(g, j, x) || ChainJoins(g, i, j, x)
  {
    var root := g.arena[RootOf(g.arena, i)];
    var path := PathTo(g.arena, i);
    if root.run.Some? {
      JoinPathOutlives(g, path, root.run.value);
      assert Outlives(MaybeEndRun(JoinAll(g, path, root.run.value), root.run.value), j, x) == Outlives(JoinCandidate(g, i), j, x);
    } else {
      var g1 := AddRun(g, SandboxInitRow(root), false);
      GI.AddRunKeeps(g, SandboxInitRow(root), false);
      JoinPathOutlives(g1, path, |g.runs|);
      assert Outlives(g1, j, x) == Outlives(g, j, x);
      assert Outlives(MaybeEndRun(JoinAll(g1, path, |g.runs|), |g.runs|), j, x) == Outlives(JoinCandidate(g, i), j, x);
    }
  }

  lemma CandidateOutlives(e: Env, s: State, p: nat, i: nat, j: nat, r: nat)
    requires Core(s) && p < |s.buffer.pendings| && i < |s.graph.arena| && e.entitlements.Some?
    ensures Outlives(FinalizeCandidate(e, s, p, i).graph, j, r) <==> Outlives(s.graph, j, r) || ChainJoins(s.graph, i, j, r)
  {
    if IsCandidate(e, s, i) {
      var s1 := s.(caches := CheckedEntitlement(e, s, i), graph := JoinCandidate(s.graph, i));
      JoinCandidateOutlives(s.graph, i, j, r);
      AttributeOutlives(e, s1, p, i);
      assert Outlives(Attribute(e, s1, p, i).graph, j, r) == Outlives(s1.graph, j, r);
    } else {
      OrphanOutlives(s.(caches := CheckedEntitlement(e, s, i)), p);
    }
  }

  lemma OrphanOutlives(s: State, p: nat)
    requires WF(s) && p < |s.buffer.pendings|
    ensures SameOutlivers(s.graph, StoreOrphan(s, p).graph)
  {
  }

  /** What denial p resolves to is in no run and a candidate for run r, which is over, and image j is on its
    fork chain and runs outside any run. The denial has no session tag. */
  predicate FinalizeJoinsLate(e: Env, s: State, p: nat, j: nat, r: nat)
    requires WF(s) && p < |s.buffer.pendings|
  {
    var d := s.buffer.pendings[p].d;
    var i := Resolve(s, d.pid, d.time);
    && Detect(e, d.message).None? && e.entitlements.Some?
    && i.Some? && s.graph.arena[i.value].run.None?
    && ChainJoins(s.graph, i.value, j, r)
  }

  lemma FinalizeOutlives(e: Env, s0: State, p: nat, classify: bool, j: nat, r: nat)
    requires Core(s0) && p < |s0.buffer.pendings|
    ensures
      var g' := Finalize(e, s0, p, classify).graph;
      Outlives(g', j, r) <==> Outlives(s0.graph, j, r) || (classify && FinalizeJoinsLate(e, s0, p, j, r))
  {
    var s := s0.(buffer := ForgetPending(s0.buffer, p));
    var d := s.buffer.pendings[p].d;
    var i := Resolve(s, d.pid, d.time);
    var m := Detect(e, d.message);
    if i.Some? && s.graph.arena[i.value].run.Some? {
      AttributeOutlives(e, s, p, i.value);
    } else if m.Some? && classify {
      AdoptDenialOutlives(e, s, p, i, m.value);
    } else if i.Some? && classify && e.entitlements.Some? {
      CandidateOutlives(e, s, p, i.value, j, r);
    } else {
      OrphanOutlives(s, p);
    }
  }

  /** Before denial p is visited: the visit will join image j to run r, although r is over. */
  predicate WillJoinLate(e: Env, s: State, p: nat, now: Time, j: nat, r: nat)
    requires WF(s) && p < |s.buffer.pendings|
  {
    Judge(e, s, p, now).FinalizeFully? && FinalizeJoinsLate(e, s, p, j, r)
  }

  /** One visit, in any state: image j runs in run r, which is over, afterwards if and only if it did before
    or the state before the visit is one in which the visit joins it late. */
  lemma VisitOutlives(e: Env, s: State, p: nat, now: Time, j: nat, r: nat)
    requires Core(s) && p < |s.buffer.pendings|
    ensures Outlives(TickOne(e, s, p, now).graph, j, r) <==> Outlives(s.graph, j, r) || WillJoinLate(e, s, p, now, j, r)
  {
    match Judge(e, s, p, now) {
      case FinalizeFully => FinalizeOutlives(e, s, p, true, j, r);
      case FinalizeLagging => FinalizeOutlives(e, s, p, false, j, r);
      case AttributeTo(i) => AttributeOutlives(e, s, p, i);
      case Keep =>
    }
  }

  // ---------------------------------------------------------------------------------------------
  // Whole ticks

  /** Some visit of the list, in the state that the visits before it lead to, joins j late. */
  ghost predicate ListJoinsLate(e: Env, s: State, list: seq<nat>, now: Time, j: nat, r: nat)
    requires WF(s) && InRange(list, |s.buffer.pendings|)
    decreases |list|
  {
    list != [] &&
      var init := list[..|list| - 1];
      || ListJoinsLate(e, s, init, now, j, r)
      || WillJoinLate(e, TickList(e, s, init, now).0, list[|list| - 1], now, j, r)
  }

  /** Some visit of the tick joins j late. */
  ghost predicate PidsJoinLate(e: Env, s: State, order: seq<int>, now: Time, j: nat, r: nat)
    requires WF(s)
    decreases |order|
  {
    order != [] &&
      var init := order[..|order| - 1];
      var s1 := TickPids(e, s, init, now);
      || PidsJoinLate(e, s, init, now, j, r)
      || ListJoinsLate(e, s1, ListOf(s1.buffer.pendingByPID, order[|order| - 1]), now, j, r)
  }

  lemma {:induction false} ListOutlives(
      e: Env, s: State, list: seq<nat>, rest: seq<nat>, now: Time, lists: map<int, seq<nat>>, pid: int, j: nat, r: nat)
    requires Core(s) && InRange(list, |s.buffer.pendings|)
    requires BI.BufferInv(s.buffer, lists[pid := list + rest])
    ensures Outlives(TickList(e, s, list, now).0.graph, j, r) <==> Outlives(s.graph, j, r) || ListJoinsLate(e, s, list, now, j, r)
    decreases |list|
  {
    if list != [] {
      var init, p := list[..|list| - 1], list[|list| - 1];
      SplitLast(list, rest);
      ListOutlives(e, s, init, [p] + rest, now, lists, pid, j, r);
      LastVisit(e, s, init, p, rest, now, lists, pid);
      VisitOutlives(e, TickList(e, s, init, now).0, p, now, j, r);
      TickListSnoc(e, s, init, p, now);
    }
  }

  lemma PidOutlives(e: Env, s: State, pid: int, now: Time, j: nat, r: nat)
    requires Inv(s)
    ensures
      var list := ListOf(s.buffer.pendingByPID, pid);
      Outlives(TickList(e, s, list, now).0.graph, j, r) <==> Outlives(s.graph, j, r) || ListJoinsLate(e, s, list, now, j, r)
  {
    var list := ListOf(s.buffer.pendingByPID, pid);
    assert list + [] == list;
    WithEmptyList(s.buffer, pid);
    ListOutlives(e, s, list, [], now, s.buffer.pendingByPID, pid, j, r);
  }

  lemma {:induction false} PidsOutlive(e: Env, s: State, order: seq<int>, now: Time, j: nat, r: nat)
    requires Inv(s)
    ensures Outlives(TickPids(e, s, order, now).graph, j, r) <==> Outlives(s.graph, j, r) || PidsJoinLate(e, s, order, now, j, r)
    decreases |order|
  {
    if order != [] {
      var init := order[..|order| - 1];
      PidsOutlive(e, s, init, now, j, r);
      TickPidsInv(e, s, init, now);
      PidOutlives(e, TickPids(e, s, init, now), order[|order| - 1], now, j, r);
    }
  }

  lemma TickOutlives(e: Env, s: State, now: Time, order: seq<int>, j: nat, r: nat)
    requires Inv(s)
    ensures Outlives(Tick(e, s, now, order).graph, j, r) <==> Outlives(s.graph, j, r) || PidsJoinLate(e, s, order, now, j, r)
  {
    PidsOutlive(e, s, order, now, j, r);
  }

  lemma HandleDenialOutlives(e: Env, s: State, d: Denial, now: Time)
    requires WF(s)
    ensures SameOutlivers(s.graph, HandleDenial(e, s, d, now).graph)
  {
    if RouteOf(s, d).NoRow? {
      var i := Attributable(s, d);
      if i.Some? {
        AttributeOutlives(e, s.(buffer := NewPending(s.buffer, d, now)), |s.buffer.pendings|, i.value);
      }
    }
  }

  // ---------------------------------------------------------------------------------------------
  // Whole runs

  ghost predicate StepJoinsLate(e: Env, s: State, step: Step, i: nat, r: nat)
    requires WF(s)
  {
    step.TickAt? && PidsJoinLate(e, s, step.order, step.now, i, r)
  }

  /** Some visit of some tick of the run joined image i to run r, although the run was over. */
  ghost predicate JoinedLate(e: Env, steps: seq<Step>, i: nat, r: nat)
    requires Feasible(e, steps)
    decreases |steps|
  {
    steps != [] &&
      var init := steps[..|steps| - 1];
      || JoinedLate(e, init, i, r)
      || StepJoinsLate(e, After(e, init), steps[|steps| - 1], i, r)
  }

  /** Image i joined run r late, or was forked or exec'd from an image that came late. */
  ghost predicate CameLate(e: Env, steps: seq<Step>, i: nat, r: nat)
    requires Feasible(e, steps) && i < |After(e, steps).graph.arena|
    decreases i
  {
    var origin := Origin(After(e, steps).graph.arena[i]);
    JoinedLate(e, steps, i, r) || (origin.Some? && CameLate(e, steps, origin.value, r))
  }

  lemma {:induction false} CameLateStays(e: Env, steps: seq<Step>, i: nat, r: nat)
    requires Feasible(e, steps) && steps != []
    requires i < |After(e, steps[..|steps| - 1]).graph.arena| && CameLate(e, steps[..|steps| - 1], i, r)
    requires Grows(After(e, steps[..|steps| - 1]).graph.arena, After(e, steps).graph.arena)
    ensures CameLate(e, steps, i, r)
    decreases i
  {
    var init := steps[..|steps| - 1];
    assert GrowsAt(After(e, init).graph.arena[i], After(e, steps).graph.arena[i]);
    if !JoinedLate(e, init, i, r) {
      CameLateStays(e, steps, Origin(After(e, init).graph.arena[i]).value, r);
    }
  }

  lemma {:induction false} OutliversCameLate(e: Env, steps: seq<Step>, i: nat, r: nat)
    requires Feasible(e, steps) && ActorsRun(e, steps) && Outlives(After(e, steps).graph, i, r)
    ensures CameLate(e, steps, i, r)
    decreases |steps|
  {
    if steps != [] {
      var init := steps[..|steps| - 1];
      var s := After(e, init);
      InvHolds(e, init);
      StepGrows(e, s, steps[|steps| - 1]);
      StepLate(e, s, steps[|steps| - 1], i, r);
      var origin := Origin(After(e, steps).graph.arena[i]);
      if Outlives(s.graph, i, r) {
        OutliversCameLate(e, init, i, r);
        CameLateStays(e, steps, i, r);
      } else if origin.Some? && Outlives(s.graph, origin.value, r) {
        OutliversCameLate(e, init, origin.value, r);
        CameLateStays(e, steps, origin.value, r);
      }
    }
  }

  /** What one step can add to the images that outlive a run. */
  lemma StepLate(e: Env, s: State, step: Step, i: nat, r: nat)
    requires Inv(s) && (step.ProcessEvent? ==> ByRunningActor(s, step.ev)) && Outlives(Apply(e, s, step).graph, i, r)
    ensures
      var g' := Apply(e, s, step).graph;
      || Outlives(s.graph, i, r)
      || (Origin(g'.arena[i]).Some? && Outlives(s.graph, Origin(g'.arena[i]).value, r))
      || StepJoinsLate(e, s, step, i, r)
  {
    match step {
      case ProcessEvent(ev) => EventDescends(e, s, ev);
      case DenialLine(d, now) => HandleDenialOutlives(e, s, d, now);
      case TickAt(now, order) => TickOutlives(e, s, now, order, i, r);
    }
  }

  ghost predicate SomeJoinedLate(e: Env, steps: seq<Step>, r: nat)
    requires Feasible(e, steps)
  {
    exists i: nat :: JoinedLate(e, steps, i, r)
  }

  lemma {:induction false} CameLateFromJoin(e: Env, steps: seq<Step>, i: nat, r: nat)
    requires Feasible(e, steps) && i < |After(e, steps).graph.arena| && CameLate(e, steps, i, r)
    ensures SomeJoinedLate(e, steps, r)
    decreases i
  {
    if !JoinedLate(e, steps, i, r) {
      CameLateFromJoin(e, steps, Origin(After(e, steps).graph.arena[i]).value, r);
    }
  }

  /** The run's row is exited, and an image of the run is running. */
  predicate RunsOn(g: Graph, r: nat) {
    r < |g.db.runs| && g.db.runs[r].status == Exited && HasRunning(g.arena, r)
  }

  ghost predicate EverRunsOn(e: Env, steps: seq<Step>, r: nat)
    requires Feasible(e, steps)
    decreases |steps|
  {
    RunsOn(After(e, steps).graph, r) || (steps != [] && EverRunsOn(e, steps[..|steps| - 1], r))
  }

  lemma RunsOnOutlives(g: Graph, r: nat)
    requires GI.GraphInv(g)
    ensures RunsOn(g, r) <==> exists i: nat :: Outlives(g, i, r)
  {
    if r < |g.runs| {
      assert GI.RunRowFollows(g.runs[r], g.db.runs[r], r);
    }
    if RunsOn(g, r) {
      var i :| 0 <= i < |g.arena| && g.arena[i].run == Some(r) && g.arena[i].end.None?;
      assert Outlives(g, i, r);
    }
  }

  /** The images that run in an exited run are those that came late, and what they forked and exec'd. */
  lemma RunningInExitedCameLate(e: Env, steps: seq<Step>, i: nat, r: nat)
    requires Feasible(e, steps) && ActorsRun(e, steps)
    requires
      var g := After(e, steps).graph;
      && i < |g.arena| && g.arena[i].run == Some(r) && g.arena[i].end.None?
      && r < |g.db.runs| && g.db.runs[r].status == Exited
    ensures CameLate(e, steps, i, r)
  {
    var g := After(e, steps).graph;
    InvHolds(e, steps);
    assert GI.RunRowFollows(g.runs[r], g.db.runs[r], r);
    OutliversCameLate(e, steps, i, r);
  }

  lemma RunningIsByLateJoin(e: Env, steps: seq<Step>, r: nat)
    requires Feasible(e, steps) && ActorsRun(e, steps) && RunsOn(After(e, steps).graph, r)
    ensures SomeJoinedLate(e, steps, r)
  {
    InvHolds(e, steps);
    RunsOnOutlives(After(e, steps).graph, r);
    var i: nat :| Outlives(After(e, steps).graph, i, r);
    OutliversCameLate(e, steps, i, r);
    CameLateFromJoin(e, steps, i, r);
  }

  lemma LateJoinStays(e: Env, steps: seq<Step>, r: nat)
    requires Feasible(e, steps) && steps != [] && SomeJoinedLate(e, steps[..|steps| - 1], r)
    ensures SomeJoinedLate(e, steps, r)
  {
    var i: nat :| JoinedLate(e, steps[..|steps| - 1], i, r);
    assert JoinedLate(e, steps, i, r);
  }

  lemma {:induction false} RunningOnNeedsLateJoin(e: Env, steps: seq<Step>, r: nat)
    requires Feasible(e, steps) && ActorsRun(e, steps) && EverRunsOn(e, steps, r)
    ensures SomeJoinedLate(e, steps, r)
    decreases |steps|
  {
    if RunsOn(After(e, steps).graph, r) {
      RunningIsByLateJoin(e, steps, r);
    } else {
      RunningOnNeedsLateJoin(e, steps[..|steps| - 1], r);
      LateJoinStays(e, steps, r);
    }
  }

  lemma {:induction false} LateJoinRunsOn(e: Env, steps: seq<Step>, i: nat, r: nat)
    requires Feasible(e, steps) && JoinedLate(e, steps, i, r)
    ensures EverRunsOn(e, steps, r)
    decreases |steps|
  {
    var init := steps[..|steps| - 1];
    if JoinedLate(e, init, i, r) {
      LateJoinRunsOn(e, init, i, r);
    } else {
      InvHolds(e, init);
      InvHolds(e, steps);
      TickOutlives(e, After(e, init), steps[|steps| - 1].now, steps[|steps| - 1].order, i, r);
      RunsOnOutlives(After(e, steps).graph, r);
    }
  }

  /** When only running processes fork and exec: an exited run has, or once had, a running image if and
    only if some visit of some tick joined the fork chain of a candidate, an image of it running and in
    no run, to the run when it was over. */
  lemma ExitedRunsRunOnByLateJoins(e: Env, steps: seq<Step>, r: nat)
    requires Feasible(e, steps) && ActorsRun(e, steps)
    ensures EverRunsOn(e, steps, r) <==> SomeJoinedLate(e, steps, r)
  {
    if EverRunsOn(e, steps, r) {
      RunningOnNeedsLateJoin(e, steps, r);
    }
    if SomeJoinedLate(e, steps, r) {
      var i: nat :| JoinedLate(e, steps, i, r);
      LateJoinRunsOn(e, steps, i, r);
    }
  }
}
