/** Images keep what they are: their identity and edges, the run they are in, and their end. What this
  means for the fork chains of candidates. */
module Chains {
  import opened Events
  import opened Tables
  import opened Model
  import opened Handlers
  import opened IndexInvariants
  import opened Invariant
  import opened Behaviour
  import opened Traversal

  /** Images were added; the old ones may have joined a run or ended, once each. */
  predicate Grows(a: seq<Image>, b: seq<Image>) {
    |a| <= |b| && forall k | 0 <= k < |a| :: GrowsAt(a[k], b[k])
  }

  predicate GrowsAt(a: Image, b: Image) {
    && SameImage(a, b)
    && (a.run.Some? ==> b.run == a.run && b.rowID == a.rowID)
    && (a.end.Some? ==> b.end == a.end)
  }

  /** Nothing ended, and whatever was added stands for a pid that no event named. */
  predicate OnlyJoins(a: seq<Image>, b: seq<Image>) {
    && Grows(a, b)
    && (forall k | 0 <= k < |a| :: b[k].end == a[k].end)
    && (forall k | |a| <= k < |b| :: b[k].noToken)
  }

  lemma GrowsTrans(a: seq<Image>, b: seq<Image>, c: seq<Image>)
    requires Grows(a, b) && Grows(b, c)
    ensures Grows(a, c)
  {
    forall k | 0 <= k < |a| ensures GrowsAt(a[k], c[k]) {
      assert GrowsAt(a[k], b[k]) && GrowsAt(b[k], c[k]);
    }
  }

  lemma OnlyJoinsTrans(a: seq<Image>, b: seq<Image>, c: seq<Image>)
    requires OnlyJoins(a, b) && OnlyJoins(b, c)
    ensures OnlyJoins(a, c)
  {
    GrowsTrans(a, b, c);
    forall k | |a| <= k < |c| ensures c[k].noToken {
      assert k < |b| ==> GrowsAt(b[k], c[k]);
    }
  }

  // ---------------------------------------------------------------------------------------------
  // Operations on the graph

  lemma JoinGrows(g: Graph, i: nat, r: nat)
    requires GraphOk(g) && i < |g.arena| && r < |g.runs|
    ensures OnlyJoins(g.arena, Join(g, i, r).arena)
  {
  }

  lemma {:induction false} JoinAllOnlyJoins(g: Graph, path: seq<nat>, r: nat)
    requires GraphOk(g) && InRange(path, |g.arena|) && r < |g.runs|
    ensures OnlyJoins(g.arena, JoinAll(g, path, r).arena)
    decreases |path|
  {
    if path != [] {
      var g1 := JoinAll(g, path[..|path| - 1], r);
      JoinAllOnlyJoins(g, path[..|path| - 1], r);
      JoinGrows(g1, path[|path| - 1], r);
      OnlyJoinsTrans(g.arena, g1.arena, Join(g1, path[|path| - 1], r).arena);
    }
  }

  lemma JoinCandidateOnlyJoins(g: Graph, i: nat)
    requires GraphOk(g) && i < |g.arena| && Eligible(g.arena, i)
    ensures OnlyJoins(g.arena, JoinCandidate(g, i).arena)
  {
    var root := g.arena[RootOf(g.arena, i)];
    var g1 := if root.run.Some? then g else AddRun(g, SandboxInitRow(root), false);
    var r := if root.run.Some? then root.run.value else |g.runs|;
    JoinAllOnlyJoins(g1, PathTo(g.arena, i), r);
    MaybeEndRunFrame(JoinAll(g1, PathTo(g.arena, i), r), r);
  }

  lemma EndImageGrows(g: Graph, i: nat, end: End)
    requires GraphOk(g) && i < |g.arena|
    ensures Grows(g.arena, EndImage(g, i, end).arena)
  {
    if g.arena[i].end.None? {
      EndMemberFrame(g, i, end);
    }
  }

  lemma JoinExecedGrows(e: Env, g: Graph, ev: Event, i: nat, actorRun: Option<nat>)
    requires GraphOk(g) && i < |g.arena| && (actorRun.Some? ==> actorRun.value < |g.runs|)
    ensures Grows(g.arena, JoinExeced(e, g, ev, i, actorRun).arena)
  {
    if ev.target.path == SANDBOX_EXEC_PATH {
      JoinGrows(StartSandboxExecRun(e, g, ev, actorRun), i, |g.runs|);
    } else if actorRun.Some? {
      JoinGrows(g, i, actorRun.value);
    }
  }

  lemma FinishExecGrows(e: Env, g: Graph, ev: Event, i: nat, actor: nat)
    requires GraphOk(g) && i < |g.arena| && actor < |g.arena|
    ensures Grows(g.arena, FinishExec(e, g, ev, i, actor).arena)
  {
    var g1 := JoinExeced(e, g, ev, i, g.arena[actor].run);
    JoinExecedGrows(e, g, ev, i, g.arena[actor].run);
    EndImageGrows(g1, actor, End(ev.time, ByExec, None));
    GrowsTrans(g.arena, g1.arena, FinishExec(e, g, ev, i, actor).arena);
  }

  // ---------------------------------------------------------------------------------------------
  // Process events

  lemma ForkGrows(s: State, ev: Event)
    requires WF(s)
    ensures Grows(s.graph.arena, HandleFork(s, ev).graph.arena)
  {
    var s1 := SeeBoth(s, ev);
    if ev.target.token !in s1.index.images {
      var img := s1.graph.arena[s1.index.images[ev.process.token]];
      var s2 := Register(s1, Forked(ev, s1.index.images[ev.process.token], img.args, img.cwd));
      if img.run.Some? {
        JoinGrows(s2.graph, |s1.graph.arena|, img.run.value);
        GrowsTrans(s.graph.arena, s2.graph.arena, HandleFork(s, ev).graph.arena);
      }
    }
  }

  lemma ExecGrows(e: Env, s: State, ev: Event)
    requires WF(s)
    ensures Grows(s.graph.arena, HandleExec(e, s, ev).graph.arena)
  {
    var s1 := SeeBoth(s, ev);
    if ev.target.token !in s1.index.images {
      var actor := s1.index.images[ev.process.token];
      var s2 := Register(s1, Execed(ev, actor, s1.graph.arena[actor].parent));
      FinishExecGrows(e, s2.graph, ev, |s1.graph.arena|, actor);
      GrowsTrans(s.graph.arena, s2.graph.arena, HandleExec(e, s, ev).graph.arena);
    }
  }

  lemma EventGrows(e: Env, s: State, ev: Event)
    requires WF(s)
    ensures Grows(s.graph.arena, HandleES(e, s, ev).graph.arena)
  {
    var s1 := s.(watermark := Later(s.watermark, ev.time));
    match ev.kind {
      case Fork => ForkGrows(s1, ev);
      case Exec => ExecGrows(e, s1, ev);
      case Exit =>
        if ev.process.token in s.index.images {
          EndImageGrows(s.graph, s.index.images[ev.process.token], End(ev.time, ByExit, Some(ev.exitStatus)));
        }
      case OtherKind =>
    }
  }

  // ---------------------------------------------------------------------------------------------
  // Denials and ticks

  lemma AttributeOnlyJoins(e: Env, s: State, p: nat, i: nat)
    requires WF(s) && p < |s.buffer.pendings| && i < |s.graph.arena| && s.graph.arena[i].run.Some?
    ensures OnlyJoins(s.graph.arena, Attribute(e, s, p, i).graph.arena)
  {
  }

  lemma JoinedOnlyJoins(e: Env, s: State, p: nat, i: nat, r: nat)
    requires WF(s) && p < |s.buffer.pendings| && i < |s.graph.arena| && r < |s.graph.runs|
    ensures
      var s1 := s.(graph := Join(s.graph, i, r));
      s1.graph.arena[i].run.Some? && OnlyJoins(s.graph.arena, Attribute(e, s1, p, i).graph.arena)
  {
    var s1 := s.(graph := Join(s.graph, i, r));
    JoinGrows(s.graph, i, r);
    AttributeOnlyJoins(e, s1, p, i);
    OnlyJoinsTrans(s.graph.arena, s1.graph.arena, Attribute(e, s1, p, i).graph.arena);
  }

  lemma AdoptDenialOnlyJoins(e: Env, s: State, p: nat, i: Option<nat>, m: Match)
    requires WF(s) && p < |s.buffer.pendings| && (i.Some? ==> i.value < |s.graph.arena|)
    ensures OnlyJoins(s.graph.arena, AdoptDenial(e, s, p, i, m).graph.arena)
  {
    var d := s.buffer.pendings[p].d;
    var s1 := Adopt(s, m, d);
    var k := if i.Some? then i.value else |s1.graph.arena|;
    var s2 := if i.Some? then s1 else Register(s1, Stub(d.pid));
    StubOnlyJoins(s1, d.pid);
    JoinedOnlyJoins(e, s2, p, k, s1.caches.adopted[AdoptionKey(m)]);
    OnlyJoinsTrans(s.graph.arena, s2.graph.arena, AdoptDenial(e, s, p, i, m).graph.arena);
  }

  lemma StubOnlyJoins(s: State, pid: int)
    requires WF(s)
    ensures OnlyJoins(s.graph.arena, Register(s, Stub(pid)).graph.arena)
  {
  }

  lemma CandidateOnlyJoins(e: Env, s: State, p: nat, i: nat)
    requires WF(s) && p < |s.buffer.pendings| && i < |s.graph.arena| && e.entitlements.Some?
    ensures OnlyJoins(s.graph.arena, FinalizeCandidate(e, s, p, i).graph.arena)
  {
    if IsCandidate(e, s, i) {
      var s1 := s.(caches := CheckedEntitlement(e, s, i), graph := JoinCandidate(s.graph, i));
      JoinCandidateOnlyJoins(s.graph, i);
      AttributeOnlyJoins(e, s1, p, i);
      OnlyJoinsTrans(s.graph.arena, s1.graph.arena, FinalizeCandidate(e, s, p, i).graph.arena);
    }
  }

  lemma FinalizeOnlyJoins(e: Env, s0: State, p: nat, classify: bool)
    requires WF(s0) && p < |s0.buffer.pendings|
    ensures OnlyJoins(s0.graph.arena, Finalize(e, s0, p, classify).graph.arena)
  {
    var s := s0.(buffer := ForgetPending(s0.buffer, p));
    var d := s.buffer.pendings[p].d;
    var i := Resolve(s, d.pid, d.time);
    var m := Detect(e, d.message);
    if i.Some? && s.graph.arena[i.value].run.Some? {
      AttributeOnlyJoins(e, s, p, i.value);
    } else if m.Some? && classify {
      AdoptDenialOnlyJoins(e, s, p, i, m.value);
    } else if i.Some? && classify && e.entitlements.Some? {
      CandidateOnlyJoins(e, s, p, i.value);
    }
  }

  lemma TickOneOnlyJoins(e: Env, s: State, p: nat, now: Time)
    requires WF(s) && p < |s.buffer.pendings|
    ensures OnlyJoins(s.graph.arena, TickOne(e, s, p, now).graph.arena)
  {
    match Judge(e, s, p, now) {
      case FinalizeFully => FinalizeOnlyJoins(e, s, p, true);
      case FinalizeLagging => FinalizeOnlyJoins(e, s, p, false);
      case AttributeTo(i) => AttributeOnlyJoins(e, s, p, i);
      case Keep =>
    }
  }

  lemma TickOnlyJoins(e: Env, s: State, now: Time, order: seq<int>)
    requires Inv(s)
    ensures OnlyJoins(s.graph.arena, Tick(e, s, now, order).graph.arena)
  {
    var Q := (t: Time, x: Index, pendings: seq<Pending>, g: Graph) => OnlyJoins(s.graph.arena, g.arena);
    forall s1: State, p: nat | Core(s1) && Undecided(s1, p) && Holds(Q, s1) ensures Holds(Q, TickOne(e, s1, p, now)) {
      TickOneOnlyJoins(e, s1, p, now);
      OnlyJoinsTrans(s.graph.arena, s1.graph.arena, TickOne(e, s1, p, now).graph.arena);
    }
    TickStable(e, s, order, now, Q);
  }

  lemma HandleDenialOnlyJoins(e: Env, s: State, d: Denial, now: Time)
    requires WF(s)
    ensures OnlyJoins(s.graph.arena, HandleDenial(e, s, d, now).graph.arena)
  {
    if RouteOf(s, d).NoRow? {
      var i := Attributable(s, d);
      if i.Some? {
        AttributeOnlyJoins(e, s.(buffer := NewPending(s.buffer, d, now)), |s.buffer.pendings|, i.value);
      }
    }
  }

  /** Along any step images keep their identity, edges, run and end. */
  lemma StepGrows(e: Env, s: State, step: Step)
    requires Inv(s)
    ensures Grows(s.graph.arena, Apply(e, s, step).graph.arena)
  {
    match step {
      case ProcessEvent(ev) => EventGrows(e, s, ev);
      case DenialLine(d, now) => HandleDenialOnlyJoins(e, s, d, now);
      case TickAt(now, order) => TickOnlyJoins(e, s, now, order);
    }
  }

  // ---------------------------------------------------------------------------------------------
  // Fork chains

  lemma {:induction false} EligibleFrame(a: seq<Image>, b: seq<Image>, i: nat)
    requires EdgesOk(a) && EdgesOk(b) && Grows(a, b) && i < |a|
    ensures Eligible(b, i) <==> Eligible(a, i)
    ensures Eligible(a, i) ==> RootOf(b, i) == RootOf(a, i)
    decreases i
  {
    assert GrowsAt(a[i], b[i]);
    if a[i].parent.Some? {
      assert GrowsAt(a[a[i].parent.value], b[a[i].parent.value]);
      EligibleFrame(a, b, a[i].parent.value);
    }
  }

  lemma {:induction false} EligibleSame(a: seq<Image>, b: seq<Image>, i: nat)
    requires EdgesOk(a) && EdgesOk(b) && SameIdentities(a, b) && i < |a|
    ensures Eligible(b, i) <==> Eligible(a, i)
    ensures Eligible(a, i) ==> RootOf(b, i) == RootOf(a, i)
    decreases i
  {
    assert SameImage(a[i], b[i]);
    if a[i].parent.Some? {
      assert SameImage(a[a[i].parent.value], b[a[i].parent.value]);
      EligibleSame(a, b, a[i].parent.value);
    }
  }

  /** The images of a candidate's fork chain have the same root, and each but the root was forked from
    the one before it. */
  lemma {:induction false} PathMember(arena: seq<Image>, i: nat, k: nat)
    requires EdgesOk(arena) && i < |arena| && Eligible(arena, i) && k < |PathTo(arena, i)|
    ensures
      var path := PathTo(arena, i);
      && Eligible(arena, path[k]) && RootOf(arena, path[k]) == RootOf(arena, i)
      && (k > 0 ==> !arena[path[k]].execSeen && arena[path[k]].parent == Some(path[k - 1]))
    decreases i
  {
    if !arena[i].execSeen {
      var p := arena[i].parent.value;
      if k < |PathTo(arena, p)| {
        PathMember(arena, p, k);
      } else {
        PathMember(arena, p, |PathTo(arena, p)| - 1);
      }
    }
  }

  /** Image i is on the fork chain of an exec'd image in run r. */
  predicate OnChainOf(g: Graph, i: nat, r: nat) {
    EdgesOk(g.arena) && i < |g.arena| && Eligible(g.arena, i) && g.arena[RootOf(g.arena, i)].run == Some(r)
  }
}
