/** Exactly how an exited run comes to have running images, whatever the order of events: a visit joins a
  candidate's fork chain to it, or one of its images, though its run is over, forks or execs. */
module Outliving {
  import opened Events
  import opened Tables
  import opened Model
  import opened Handlers
  import opened IndexInvariants
  import opened Invariant
  import opened Behaviour
  import opened Chains
  import opened Latecomers
  import GI = GraphInvariants

  // ---------------------------------------------------------------------------------------------
  // Process events

  /** The target of a fork or exec is not known yet, and is not the actor. */
  predicate Fresh(s: State, ev: Event) {
    ev.target.token !in s.index.images && ev.target.token != ev.process.token
  }

  /** The event ends image j: by its exit or by its exec. */
  predicate Ends(s: State, ev: Event, j: nat) {
    && ev.process.token in s.index.images && j == s.index.images[ev.process.token]
    && (ev.kind == Exit || (ev.kind == Exec && Fresh(s, ev)))
  }

  /** The event makes the new image j, of a fork or of an exec of anything but sandbox-exec, by an image of
    run r, which is over. */
  predicate BornLate(s: State, ev: Event, j: nat, r: nat)
    requires WF(s)
  {
    && (ev.kind == Fork || (ev.kind == Exec && ev.target.path != SANDBOX_EXEC_PATH))
    && ev.process.token in s.index.images && Fresh(s, ev)
    && j == |s.graph.arena|
    && s.graph.arena[s.index.images[ev.process.token]].run == Some(r)
    && r < |s.graph.runs| && s.graph.runs[r].ended
  }

  lemma SeeBothSame(s: State, ev: Event)
    requires WF(s)
    ensures SameOutlivers(s.graph, SeeBoth(s, ev).graph)
  {
    if ev.process.token !in s.index.images {
      RegisterOutlives(s, Untracked(ev.process));
    }
  }

  lemma ForkOutlives(s: State, ev: Event, j: nat, r: nat)
    requires Core(s) && ev.kind == Fork
    ensures Outlives(HandleFork(s, ev).graph, j, r) <==> Outlives(s.graph, j, r) || BornLate(s, ev, j, r)
  {
    var s1 := SeeBoth(s, ev);
    SeeBothSame(s, ev);
    if ev.target.token !in s1.index.images {
      var parent := s1.index.images[ev.process.token];
      var img := s1.graph.arena[parent];
      var child := Forked(ev, parent, img.args, img.cwd);
      RegisterOutlives(s1, child);
      if img.run.Some? {
        JoinOutlives(Register(s1, child).graph, |s1.graph.arena|, img.run.value);
      }
    }
  }

  predicate ReplacesLate(g: Graph, ev: Event, n: nat, actorRun: Option<nat>, j: nat, r: nat) {
    j == n && ev.target.path != SANDBOX_EXEC_PATH && actorRun == Some(r) && r < |g.runs| && g.runs[r].ended
  }

  lemma JoinExecedOutlives(e: Env, g: Graph, ev: Event, n: nat, actorRun: Option<nat>, j: nat, r: nat)
    requires GI.GraphInv(g) && Unjoined(g, n) && (actorRun.Some? ==> actorRun.value < |g.runs|)
    ensures
      var g1 := JoinExeced(e, g, ev, n, actorRun);
      && GI.GraphInv(g1)
      && (Outlives(g1, j, r) <==> Outlives(g, j, r) || ReplacesLate(g, ev, n, actorRun, j, r))
  {
    if ev.target.path == SANDBOX_EXEC_PATH {
      var g0 := StartSandboxExecRun(e, g, ev, actorRun);
      StartRunOutlives(e, g, ev, actorRun);
      JoinOutlives(g0, n, |g.runs|);
      assert Outlives(g0, j, r) == Outlives(g, j, r);
      assert Outlives(Join(g0, n, |g.runs|), j, r) == Outlives(g0, j, r);
      GI.StartSandboxExecRunKeeps(e, g, ev, actorRun);
      GI.JoinKeeps(g0, n, |g.runs|);
    } else if actorRun.Some? {
      JoinOutlives(g, n, actorRun.value);
      GI.JoinKeeps(g, n, actorRun.value);
    }
  }

  lemma FinishExecOutlives(e: Env, g: Graph, ev: Event, n: nat, actor: nat, j: nat, r: nat)
    requires GI.GraphInv(g) && Unjoined(g, n) && actor < |g.arena| && actor != n
    ensures
      var g' := FinishExec(e, g, ev, n, actor);
      Outlives(g', j, r) <==> j != actor && (Outlives(g, j, r) || ReplacesLate(g, ev, n, g.arena[actor].run, j, r))
  {
    var run := g.arena[actor].run;
    JoinExecedOutlives(e, g, ev, n, run, j, r);
    EndImageOutlives(JoinExeced(e, g, ev, n, run), actor, End(ev.time, ByExec, None));
  }

  lemma ExecFromOutlives(e: Env, s: State, ev: Event, j: nat, r: nat)
    requires Core(s) && ev.process.token in s.index.images
    ensures
      var actor := s.index.images[ev.process.token];
      var s2 := Register(s, Execed(ev, actor, s.graph.arena[actor].parent));
      var n := |s.graph.arena|;
      Outlives(FinishExec(e, s2.graph, ev, n, actor), j, r) <==>
        j != actor && (Outlives(s.graph, j, r) || ReplacesLate(s.graph, ev, n, s.graph.arena[actor].run, j, r))
  {
    var actor := s.index.images[ev.process.token];
    var img := Execed(ev, actor, s.graph.arena[actor].parent);
    var g := Register(s, img).graph;
    GI.RegisterKeeps(s.graph, img);
    RegisterOutlives(s, img);
    assert Outlives(g, j, r) == Outlives(s.graph, j, r) && g.arena[actor] == s.graph.arena[actor];
    FinishExecOutlives(e, g, ev, |s.graph.arena|, actor, j, r);
  }

  lemma ExecOutlives(e: Env, s: State, ev: Event, j: nat, r: nat)
    requires Core(s) && ev.kind == Exec
    ensures Outlives(HandleExec(e, s, ev).graph, j, r) <==> (Outlives(s.graph, j, r) && !Ends(s, ev, j)) || BornLate(s, ev, j, r)
  {
    var s1 := SeeBoth(s, ev);
    SeeBothSame(s, ev);
    assert Outlives(s1.graph, j, r) == Outlives(s.graph, j, r);
    if ev.target.token !in s1.index.images {
      SeeBothCore(s, ev);
      ExecFromOutlives(e, s1, ev, j, r);
      ReplacedActor(s, ev, j, r);
    } else {
      SeesActor(s, ev);
    }
  }

  /** The conditions of an exec, seen from the state in which its actor is tracked. */
  lemma ReplacedActor(s: State, ev: Event, j: nat, r: nat)
    requires WF(s) && ev.kind == Exec && ev.target.token !in SeeBoth(s, ev).index.images
    ensures
      var s1 := SeeBoth(s, ev);
      var actor := s1.index.images[ev.process.token];
      && (BornLate(s, ev, j, r) <==> ReplacesLate(s1.graph, ev, |s1.graph.arena|, s1.graph.arena[actor].run, j, r))
      && (Outlives(s.graph, j, r) ==> (Ends(s, ev, j) <==> j == actor))
      && (BornLate(s, ev, j, r) ==> j != actor)
  {
    SeesActor(s, ev);
  }

  /** An actor met for the first time is the newest image, and in no run. */
  lemma SeesActor(s: State, ev: Event)
    requires WF(s)
    ensures
      var s1 := SeeBoth(s, ev);
      && (ev.target.token !in s1.index.images <==> Fresh(s, ev) && ev.target.token !in s.index.images)
      && s1.graph.runs == s.graph.runs
      && if ev.process.token in s.index.images
         then s1.graph == s.graph && s1.index.images[ev.process.token] == s.index.images[ev.process.token]
         else s1.index.images[ev.process.token] == |s.graph.arena| && s1.graph.arena[|s.graph.arena|].run.None?
  {
  }

  lemma ExitOutlives(s: State, ev: Event, j: nat, r: nat)
    requires Core(s) && ev.kind == Exit
    ensures Outlives(HandleExit(s, ev).graph, j, r) <==> Outlives(s.graph, j, r) && !Ends(s, ev, j)
  {
    if ev.process.token in s.index.images {
      EndImageOutlives(s.graph, s.index.images[ev.process.token], End(ev.time, ByExit, Some(ev.exitStatus)));
    }
  }

  /** One process event, in any state: image j runs in run r, which is over, afterwards if and only if it
    did before and the event does not end it, or it is new and comes from an image of r. */
  lemma EventOutlives(e: Env, s: State, ev: Event, j: nat, r: nat)
    requires Core(s)
    ensures Outlives(HandleES(e, s, ev).graph, j, r) <==> (Outlives(s.graph, j, r) && !Ends(s, ev, j)) || BornLate(s, ev, j, r)
  {
    var s1 := s.(watermark := Later(s.watermark, ev.time));
    assert BornLate(s1, ev, j, r) == BornLate(s, ev, j, r) && Ends(s1, ev, j) == Ends(s, ev, j);
    match ev.kind {
      case Fork => ForkOutlives(s1, ev, j, r);
      case Exec => ExecOutlives(e, s1, ev, j, r);
      case Exit => ExitOutlives(s1, ev, j, r);
      case OtherKind =>
    }
  }

  // ---------------------------------------------------------------------------------------------
  // Whole runs

  /** The step puts image j, running, into run r, which is over. Every condition is on a state before. */
  ghost predicate EntersLate(e: Env, s: State, step: Step, j: nat, r: nat)
    requires WF(s)
  {
    match step
    case ProcessEvent(ev) => BornLate(s, ev, j, r)
    case DenialLine(_, _) => false
    case TickAt(now, order) => PidsJoinLate(e, s, order, now, j, r)
  }

  lemma StepOutlives(e: Env, s: State, step: Step, j: nat, r: nat)
    requires Inv(s)
    ensures Outlives(Apply(e, s, step).graph, j, r) <==>
      (Outlives(s.graph, j, r) && !(step.ProcessEvent? && Ends(s, step.ev, j))) || EntersLate(e, s, step, j, r)
  {
    match step {
      case ProcessEvent(ev) => EventOutlives(e, s, ev, j, r);
      case DenialLine(d, now) => HandleDenialOutlives(e, s, d, now);
      case TickAt(now, order) => TickOutlives(e, s, now, order, j, r);
    }
  }

  /** Some step of the run put image j into run r late. */
  ghost predicate EnteredLate(e: Env, steps: seq<Step>, j: nat, r: nat)
    requires Feasible(e, steps)
    decreases |steps|
  {
    steps != [] &&
      var init := steps[..|steps| - 1];
      EnteredLate(e, init, j, r) || EntersLate(e, After(e, init), steps[|steps| - 1], j, r)
  }

  predicate Ended(arena: seq<Image>, j: nat) {
    j < |arena| && arena[j].end.Some?
  }

  lemma ExecEndsActor(e: Env, s: State, ev: Event)
    requires WF(s) && ev.process.token in s.index.images && Fresh(s, ev)
    ensures Ended(HandleExec(e, s, ev).graph.arena, s.index.images[ev.process.token])
  {
    SeesActor(s, ev);
    var s1 := SeeBoth(s, ev);
    var actor := s1.index.images[ev.process.token];
    var g := Register(s1, Execed(ev, actor, s1.graph.arena[actor].parent)).graph;
    EndImageEndsIt(JoinExeced(e, g, ev, |s1.graph.arena|, g.arena[actor].run), actor, End(ev.time, ByExec, None));
  }

  lemma EndImageEndsIt(g: Graph, i: nat, end: End)
    requires GraphOk(g) && i < |g.arena|
    ensures Ended(EndImage(g, i, end).arena, i)
  {
  }

  lemma EndsImage(e: Env, s: State, ev: Event, j: nat)
    requires WF(s) && Ends(s, ev, j)
    ensures Ended(HandleES(e, s, ev).graph.arena, j)
  {
    if ev.kind == Exec {
      ExecEndsActor(e, s.(watermark := Later(s.watermark, ev.time)), ev);
    } else {
      EndImageEndsIt(s.graph, j, End(ev.time, ByExit, Some(ev.exitStatus)));
    }
  }

  /** One step more: what entered late runs on in its run or has ended. */
  lemma StaysOrEnds(e: Env, s: State, step: Step, j: nat, r: nat)
    requires Inv(s) && (Outlives(s.graph, j, r) || Ended(s.graph.arena, j))
    ensures Outlives(Apply(e, s, step).graph, j, r) || Ended(Apply(e, s, step).graph.arena, j)
  {
    StepOutlives(e, s, step, j, r);
    StepGrows(e, s, step);
    if Ended(s.graph.arena, j) {
      assert GrowsAt(s.graph.arena[j], Apply(e, s, step).graph.arena[j]);
    } else if step.ProcessEvent? && Ends(s, step.ev, j) {
      EndsImage(e, s, step.ev, j);
    }
  }

  lemma {:induction false} EnteredRunsOrEnded(e: Env, steps: seq<Step>, j: nat, r: nat)
    requires Feasible(e, steps) && EnteredLate(e, steps, j, r)
    ensures Outlives(After(e, steps).graph, j, r) || Ended(After(e, steps).graph.arena, j)
    decreases |steps|
  {
    var init, step := steps[..|steps| - 1], steps[|steps| - 1];
    InvHolds(e, init);
    if EnteredLate(e, init, j, r) {
      EnteredRunsOrEnded(e, init, j, r);
      StaysOrEnds(e, After(e, init), step, j, r);
    } else {
      StepOutlives(e, After(e, init), step, j, r);
    }
  }

  lemma {:induction false} OutliversEntered(e: Env, steps: seq<Step>, j: nat, r: nat)
    requires Feasible(e, steps) && Outlives(After(e, steps).graph, j, r)
    ensures EnteredLate(e, steps, j, r)
    decreases |steps|
  {
    if steps != [] {
      var init, step := steps[..|steps| - 1], steps[|steps| - 1];
      InvHolds(e, init);
      StepOutlives(e, After(e, init), step, j, r);
      if Outlives(After(e, init).graph, j, r) {
        OutliversEntered(e, init, j, r);
      }
    }
  }

  /** In every state of every run, whatever the order of events: image j runs in run r, which is over, if
    and only if some step put it there late and it has not ended since. */
  lemma OutlivesExactly(e: Env, steps: seq<Step>, j: nat, r: nat)
    requires Feasible(e, steps)
    ensures Outlives(After(e, steps).graph, j, r) <==> EnteredLate(e, steps, j, r) && !Ended(After(e, steps).graph.arena, j)
  {
    if Outlives(After(e, steps).graph, j, r) {
      OutliversEntered(e, steps, j, r);
    } else if EnteredLate(e, steps, j, r) {
      EnteredRunsOrEnded(e, steps, j, r);
    }
  }

  ghost predicate SomeStillRuns(e: Env, steps: seq<Step>, r: nat)
    requires Feasible(e, steps)
  {
    exists j: nat :: EnteredLate(e, steps, j, r) && !Ended(After(e, steps).graph.arena, j)
  }

  /** In every state of every run of the program: a run is exited and has a running image if and only if
    some image that entered it late has not ended. */
  lemma ExitedRunsRunExactly(e: Env, steps: seq<Step>, r: nat)
    requires Feasible(e, steps)
    ensures RunsOn(After(e, steps).graph, r) <==> SomeStillRuns(e, steps, r)
  {
    var g := After(e, steps).graph;
    InvHolds(e, steps);
    RunsOnOutlives(g, r);
    if RunsOn(g, r) {
      var j: nat :| Outlives(g, j, r);
      OutlivesExactly(e, steps, j, r);
    }
    if SomeStillRuns(e, steps, r) {
      var j: nat :| EnteredLate(e, steps, j, r) && !Ended(g.arena, j);
      OutlivesExactly(e, steps, j, r);
    }
  }
}
