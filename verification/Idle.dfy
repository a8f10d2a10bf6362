/** A run in which nobody runs is over, whatever the order of events: every operation that takes the last
  running image away, or that creates a run, ends the run or leaves somebody running in it. Only adopted
  runs stay open. */
module Idle {
  import opened Events
  import opened Tables
  import opened Model
  import opened Handlers
  import opened Invariant
  import opened Behaviour
  import opened Traversal
  import GI = GraphInvariants

  predicate OverIfIdle(run: Run) {
    run.kind != Adopted && run.live == {} ==> run.ended
  }

  /** All runs but run r, which is being worked on. */
  predicate IdleBut(runs: seq<Run>, r: nat) {
    forall k | 0 <= k < |runs| && k != r :: OverIfIdle(runs[k])
  }

  predicate IdleOver(runs: seq<Run>) {
    forall k | 0 <= k < |runs| :: OverIfIdle(runs[k])
  }

  lemma MaybeEndRunIdle(g: Graph, r: nat)
    requires GraphOk(g) && r < |g.runs| && IdleBut(g.runs, r)
    ensures IdleOver(MaybeEndRun(g, r).runs)
  {
  }

  lemma EndImageIdle(g: Graph, i: nat, end: End)
    requires GraphOk(g) && i < |g.arena| && IdleOver(g.runs)
    ensures IdleOver(EndImage(g, i, end).runs)
  {
    if g.arena[i].end.None? && g.arena[i].run.Some? {
      MaybeEndRunIdle(EndMember(g, i, end), g.arena[i].run.value);
    }
  }

  /** A running image joins, or the run was in order before. */
  lemma JoinIdle(g: Graph, i: nat, r: nat)
    requires GraphOk(g) && i < |g.arena| && r < |g.runs| && IdleBut(g.runs, r)
    requires OverIfIdle(g.runs[r]) || (g.arena[i].run.None? && g.arena[i].end.None?)
    ensures IdleOver(Join(g, i, r).runs)
  {
    assert g.arena[i].run.None? && g.arena[i].end.None? ==> i in Join(g, i, r).runs[r].live;
  }

  lemma JoinExecedIdle(e: Env, g: Graph, ev: Event, i: nat, actorRun: Option<nat>)
    requires GraphOk(g) && i < |g.arena| && (actorRun.Some? ==> actorRun.value < |g.runs|) && IdleOver(g.runs)
    requires g.arena[i].run.None? && g.arena[i].end.None?
    ensures IdleOver(JoinExeced(e, g, ev, i, actorRun).runs)
  {
    if ev.target.path == SANDBOX_EXEC_PATH {
      JoinIdle(StartSandboxExecRun(e, g, ev, actorRun), i, |g.runs|);
    } else if actorRun.Some? {
      JoinIdle(g, i, actorRun.value);
    }
  }

  lemma EventIdle(e: Env, s: State, ev: Event)
    requires WF(s) && IdleOver(s.graph.runs)
    ensures IdleOver(HandleES(e, s, ev).graph.runs)
  {
    var s1 := s.(watermark := Later(s.watermark, ev.time));
    match ev.kind {
      case Fork => ForkIdle(s1, ev);
      case Exec => ExecIdle(e, s1, ev);
      case Exit =>
        if ev.process.token in s.index.images {
          EndImageIdle(s.graph, s.index.images[ev.process.token], End(ev.time, ByExit, Some(ev.exitStatus)));
        }
      case OtherKind =>
    }
  }

  lemma ForkIdle(s: State, ev: Event)
    requires WF(s) && IdleOver(s.graph.runs)
    ensures IdleOver(HandleFork(s, ev).graph.runs)
  {
    var s1 := SeeBoth(s, ev);
    if ev.target.token !in s1.index.images {
      var parent := s1.index.images[ev.process.token];
      var img := s1.graph.arena[parent];
      if img.run.Some? {
        JoinIdle(Register(s1, Forked(ev, parent, img.args, img.cwd)).graph, |s1.graph.arena|, img.run.value);
      }
    }
  }

  lemma ExecIdle(e: Env, s: State, ev: Event)
    requires WF(s) && IdleOver(s.graph.runs)
    ensures IdleOver(HandleExec(e, s, ev).graph.runs)
  {
    var s1 := SeeBoth(s, ev);
    if ev.target.token !in s1.index.images {
      var actor := s1.index.images[ev.process.token];
      var g := Register(s1, Execed(ev, actor, s1.graph.arena[actor].parent)).graph;
      JoinExecedIdle(e, g, ev, |s1.graph.arena|, g.arena[actor].run);
      EndImageIdle(JoinExeced(e, g, ev, |s1.graph.arena|, g.arena[actor].run), actor, End(ev.time, ByExec, None));
    }
  }

  // ---------------------------------------------------------------------------------------------
  // Denials and ticks

  lemma AttributeIdle(e: Env, s: State, p: nat, i: nat)
    requires WF(s) && p < |s.buffer.pendings| && i < |s.graph.arena| && s.graph.arena[i].run.Some? && IdleOver(s.graph.runs)
    ensures IdleOver(Attribute(e, s, p, i).graph.runs)
  {
  }

  lemma AdoptDenialIdle(e: Env, s: State, p: nat, i: Option<nat>, m: Match)
    requires WF(s) && p < |s.buffer.pendings| && (i.Some? ==> i.value < |s.graph.arena|) && IdleOver(s.graph.runs)
    ensures IdleOver(AdoptDenial(e, s, p, i, m).graph.runs)
  {
    var d := s.buffer.pendings[p].d;
    var s1 := Adopt(s, m, d);
    var r := s1.caches.adopted[AdoptionKey(m)];
    AdoptIdle(s, m, d);
    var k := if i.Some? then i.value else |s1.graph.arena|;
    var s2 := if i.Some? then s1 else Register(s1, Stub(d.pid));
    JoinIdle(s2.graph, k, r);
    AttributeIdle(e, s2.(graph := Join(s2.graph, k, r)), p, k);
  }

  lemma AdoptIdle(s: State, m: Match, d: Denial)
    requires WF(s) && IdleOver(s.graph.runs)
    ensures IdleOver(Adopt(s, m, d).graph.runs)
  {
  }

  lemma {:induction false} JoinAllIdle(g: Graph, path: seq<nat>, r: nat)
    requires GraphOk(g) && InRange(path, |g.arena|) && r < |g.runs| && IdleBut(g.runs, r)
    ensures IdleBut(JoinAll(g, path, r).runs, r)
    decreases |path|
  {
    if path != [] {
      JoinAllIdle(g, path[..|path| - 1], r);
    }
  }

  lemma JoinCandidateIdle(g: Graph, i: nat)
    requires GraphOk(g) && i < |g.arena| && Eligible(g.arena, i) && IdleOver(g.runs)
    ensures IdleOver(JoinCandidate(g, i).runs)
  {
    var root := g.arena[RootOf(g.arena, i)];
    var g1 := if root.run.Some? then g else AddRun(g, SandboxInitRow(root), false);
    var r := if root.run.Some? then root.run.value else |g.runs|;
    JoinAllIdle(g1, PathTo(g.arena, i), r);
    MaybeEndRunIdle(JoinAll(g1, PathTo(g.arena, i), r), r);
  }

  lemma FinalizeIdle(e: Env, s0: State, p: nat, classify: bool)
    requires WF(s0) && p < |s0.buffer.pendings| && IdleOver(s0.graph.runs)
    ensures IdleOver(Finalize(e, s0, p, classify).graph.runs)
  {
    var s := s0.(buffer := ForgetPending(s0.buffer, p));
    var d := s.buffer.pendings[p].d;
    var i := Resolve(s, d.pid, d.time);
    var m := Detect(e, d.message);
    if i.Some? && s.graph.arena[i.value].run.Some? {
      AttributeIdle(e, s, p, i.value);
    } else if m.Some? && classify {
      AdoptDenialIdle(e, s, p, i, m.value);
    } else if i.Some? && classify && e.entitlements.Some? {
      if IsCandidate(e, s, i.value) {
        JoinCandidateIdle(s.graph, i.value);
        AttributeIdle(e, s.(caches := CheckedEntitlement(e, s, i.value), graph := JoinCandidate(s.graph, i.value)), p, i.value);
      }
    }
  }

  lemma TickOneIdle(e: Env, s: State, p: nat, now: Time)
    requires WF(s) && p < |s.buffer.pendings| && IdleOver(s.graph.runs)
    ensures IdleOver(TickOne(e, s, p, now).graph.runs)
  {
    match Judge(e, s, p, now) {
      case FinalizeFully => FinalizeIdle(e, s, p, true);
      case FinalizeLagging => FinalizeIdle(e, s, p, false);
      case AttributeTo(i) => AttributeIdle(e, s, p, i);
      case Keep =>
    }
  }

  lemma TickIdle(e: Env, s: State, now: Time, order: seq<int>)
    requires Inv(s) && IdleOver(s.graph.runs)
    ensures IdleOver(Tick(e, s, now, order).graph.runs)
  {
    var Q := (t: Time, x: Index, pendings: seq<Pending>, g: Graph) => IdleOver(g.runs);
    forall s1: State, p: nat | Core(s1) && Undecided(s1, p) && Holds(Q, s1) ensures Holds(Q, TickOne(e, s1, p, now)) {
      TickOneIdle(e, s1, p, now);
    }
    TickStable(e, s, order, now, Q);
  }

  lemma HandleDenialIdle(e: Env, s: State, d: Denial, now: Time)
    requires WF(s) && IdleOver(s.graph.runs)
    ensures IdleOver(HandleDenial(e, s, d, now).graph.runs)
  {
    if RouteOf(s, d).NoRow? {
      var i := Attributable(s, d);
      if i.Some? {
        AttributeIdle(e, s.(buffer := NewPending(s.buffer, d, now)), |s.buffer.pendings|, i.value);
      }
    }
  }

  lemma StepIdle(e: Env, s: State, step: Step)
    requires Inv(s) && IdleOver(s.graph.runs)
    ensures IdleOver(Apply(e, s, step).graph.runs)
  {
    match step {
      case ProcessEvent(ev) => EventIdle(e, s, ev);
      case DenialLine(d, now) => HandleDenialIdle(e, s, d, now);
      case TickAt(now, order) => TickIdle(e, s, now, order);
    }
  }

  lemma {:induction false} IdleHolds(e: Env, steps: seq<Step>)
    requires Feasible(e, steps)
    ensures IdleOver(After(e, steps).graph.runs)
    decreases |steps|
  {
    if steps != [] {
      var init := steps[..|steps| - 1];
      IdleHolds(e, init);
      InvHolds(e, init);
      StepIdle(e, After(e, init), steps[|steps| - 1]);
    }
  }

  /** An image of run r is running. */
  predicate HasRunning(arena: seq<Image>, r: nat) {
    exists i | 0 <= i < |arena| :: arena[i].run == Some(r) && arena[i].end.None?
  }

  lemma RunningIsLive(g: Graph, r: nat)
    requires GI.LiveSets(g.arena, g.runs) && r < |g.runs|
    ensures HasRunning(g.arena, r) <==> g.runs[r].live != {}
  {
    assert GI.IsLiveSet(g.arena, r, g.runs[r].live);
    if g.runs[r].live != {} {
      var i :| i in g.runs[r].live;
      assert HasRunning(g.arena, r);
    }
  }

  /** In every state of every run of the program, whatever the order of events: a run that was not
    adopted and none of whose images runs is exited. */
  lemma IdleRunsAreExited(e: Env, steps: seq<Step>, r: nat)
    requires Feasible(e, steps) && r < |After(e, steps).graph.runs|
    ensures
      var g := After(e, steps).graph;
      r < |g.db.runs| && (g.db.runs[r].kind != Adopted && !HasRunning(g.arena, r) ==> g.db.runs[r].status == Exited)
  {
    var g := After(e, steps).graph;
    InvHolds(e, steps);
    IdleHolds(e, steps);
    RunningIsLive(g, r);
    assert GI.RunRowFollows(g.runs[r], g.db.runs[r], r);
    assert OverIfIdle(g.runs[r]);
  }
}
