/** Denials, ticks and eviction leave the settled past of a pid alone, so that over whole runs a
  denial is attributed to the same image whenever it is decided. */
module Settled {
  import opened Events
  import opened Tables
  import opened Model
  import opened Handlers
  import opened IndexInvariants
  import opened Invariant
  import opened Behaviour
  import opened Finality
  import opened Timeline

  // ---------------------------------------------------------------------------------------------
  // Decisions on denials at most add adoption stubs

  /** No times changed, new images run, and the pid's list is the same unless a stub was added to it. */
  predicate QuietIn(a: seq<Image>, list: seq<nat>, b: seq<Image>, list': seq<nat>)
    requires InRange(list, |a|) && InRange(list', |b|)
  {
    && SameTimes(a, b)
    && (forall i | |a| <= i < |b| :: b[i].end.None?)
    && (list' == list || !StubFreeIn(b, list'))
    && (!StubFreeIn(a, list) ==> !StubFreeIn(b, list'))
  }

  predicate Quiet(s: State, s': State, pid: int)
    requires WF(s) && WF(s')
  {
    && s'.watermark == s.watermark
    && QuietIn(s.graph.arena, ListOf(s.index.byPID, pid), s'.graph.arena, ListOf(s'.index.byPID, pid))
  }

  lemma QuietTrans(s: State, s1: State, s2: State, pid: int)
    requires WF(s) && WF(s1) && WF(s2) && Quiet(s, s1, pid) && Quiet(s1, s2, pid)
    ensures Quiet(s, s2, pid)
  {
    var a, b, c := s.graph.arena, s1.graph.arena, s2.graph.arena;
    forall i | 0 <= i < |a| ensures Timed(a[i], c[i]) {
      assert Timed(a[i], b[i]) && Timed(b[i], c[i]);
    }
    forall i | |a| <= i < |c| ensures c[i].end.None? {
      assert i < |b| ==> Timed(b[i], c[i]);
    }
  }

  /** Same index, same times. */
  lemma SameTimesQuiet(s: State, s': State, pid: int)
    requires WF(s) && WF(s') && s'.watermark == s.watermark && s'.index == s.index
    requires SameTimes(s.graph.arena, s'.graph.arena) && |s'.graph.arena| == |s.graph.arena|
    ensures Quiet(s, s', pid)
  {
    var list := ListOf(s.index.byPID, pid);
    assert forall k | 0 <= k < |list| :: Timed(s.graph.arena[list[k]], s'.graph.arena[list[k]]);
  }

  lemma QuietResolves(s: State, s': State, pid: int, t: Time)
    requires WF(s) && WF(s') && Quiet(s, s', pid) && StubFree(s', pid)
    ensures Resolve(s', pid, t) == Resolve(s, pid, t) && StubFree(s, pid)
  {
    var a, b := s.graph.arena, s'.graph.arena;
    forall i | 0 <= i < |a| ensures OnlyEnds(a[i], b[i], t - TIME_SLACK) {
      assert Timed(a[i], b[i]);
    }
    LaterEndsResolveAlike(a, b, ListOf(s.index.byPID, pid), t);
  }

  lemma QuietTimely(s: State, s': State, pid: int)
    requires WF(s) && WF(s') && Quiet(s, s', pid) && Timely(s, pid)
    ensures Timely(s', pid)
  {
    if StubFree(s', pid) {
      InTurnFrame(s.graph.arena, s'.graph.arena, ListOf(s.index.byPID, pid), s.watermark, s'.watermark);
    }
  }

  lemma AttributeQuiet(e: Env, s: State, p: nat, i: nat, pid: int)
    requires WF(s) && p < |s.buffer.pendings| && i < |s.graph.arena| && s.graph.arena[i].run.Some?
    ensures Quiet(s, Attribute(e, s, p, i), pid)
  {
    assert SameTimes(s.graph.arena, Attribute(e, s, p, i).graph.arena);
    SameTimesQuiet(s, Attribute(e, s, p, i), pid);
  }

  lemma StubQuiet(s: State, q: int, pid: int)
    requires WF(s)
    ensures Quiet(s, Register(s, Stub(q)), pid)
  {
    var a := s.graph.arena;
    var b := a + [Stub(q)];
    var list := ListOf(s.index.byPID, pid);
    var list' := ListOf(Register(s, Stub(q)).index.byPID, pid);
    assert forall k | 0 <= k < |list| :: Timed(a[list[k]], b[list[k]]);
    if pid == q {
      InsertMembers(b, list, |a|);
      assert |a| in list';
    }
  }

  lemma JoinAndAttributeQuiet(e: Env, s: State, p: nat, i: nat, r: nat, pid: int)
    requires WF(s) && p < |s.buffer.pendings| && i < |s.graph.arena| && r < |s.graph.runs|
    ensures
      var s1 := s.(graph := Join(s.graph, i, r));
      WF(s1) && s1.graph.arena[i].run.Some? && Quiet(s, Attribute(e, s1, p, i), pid)
  {
    var s1 := s.(graph := Join(s.graph, i, r));
    SameTimesQuiet(s, s1, pid);
    AttributeQuiet(e, s1, p, i, pid);
    QuietTrans(s, s1, Attribute(e, s1, p, i), pid);
  }

  lemma AdoptDenialQuiet(e: Env, s: State, p: nat, i: Option<nat>, m: Match, pid: int)
    requires WF(s) && p < |s.buffer.pendings| && (i.Some? ==> i.value < |s.graph.arena|)
    ensures Quiet(s, AdoptDenial(e, s, p, i, m), pid)
  {
    var d := s.buffer.pendings[p].d;
    var s1 := Adopt(s, m, d);
    var r := s1.caches.adopted[AdoptionKey(m)];
    SameTimesQuiet(s, s1, pid);
    if i.Some? {
      JoinAndAttributeQuiet(e, s1, p, i.value, r, pid);
      QuietTrans(s, s1, AdoptDenial(e, s, p, i, m), pid);
    } else {
      var s2 := Register(s1, Stub(d.pid));
      StubQuiet(s1, d.pid, pid);
      JoinAndAttributeQuiet(e, s2, p, |s1.graph.arena|, r, pid);
      QuietTrans(s, s1, s2, pid);
      QuietTrans(s, s2, AdoptDenial(e, s, p, i, m), pid);
    }
  }

  lemma {:induction false} JoinAllTimes(g: Graph, path: seq<nat>, r: nat)
    requires GraphOk(g) && InRange(path, |g.arena|) && r < |g.runs|
    ensures SameTimes(g.arena, JoinAll(g, path, r).arena)
    decreases |path|
  {
    if path != [] {
      JoinAllTimes(g, path[..|path| - 1], r);
    }
  }

  lemma JoinCandidateTimes(g: Graph, i: nat)
    requires GraphOk(g) && i < |g.arena| && Eligible(g.arena, i)
    ensures SameTimes(g.arena, JoinCandidate(g, i).arena)
  {
    var root := g.arena[RootOf(g.arena, i)];
    var g1 := if root.run.Some? then g else AddRun(g, SandboxInitRow(root), false);
    var r := if root.run.Some? then root.run.value else |g.runs|;
    JoinAllTimes(g1, PathTo(g.arena, i), r);
    MaybeEndRunFrame(JoinAll(g1, PathTo(g.arena, i), r), r);
  }

  lemma FinalizeCandidateQuiet(e: Env, s: State, p: nat, i: nat, pid: int)
    requires WF(s) && p < |s.buffer.pendings| && i < |s.graph.arena| && e.entitlements.Some?
    ensures Quiet(s, FinalizeCandidate(e, s, p, i), pid)
  {
    if IsCandidate(e, s, i) {
      var s1 := s.(caches := CheckedEntitlement(e, s, i), graph := JoinCandidate(s.graph, i));
      JoinCandidateTimes(s.graph, i);
      SameTimesQuiet(s, s1, pid);
      AttributeQuiet(e, s1, p, i, pid);
      QuietTrans(s, s1, FinalizeCandidate(e, s, p, i), pid);
    } else {
      SameTimesQuiet(s, FinalizeCandidate(e, s, p, i), pid);
    }
  }

  lemma FinalizeQuiet(e: Env, s0: State, p: nat, classify: bool, pid: int)
    requires WF(s0) && p < |s0.buffer.pendings|
    ensures Quiet(s0, Finalize(e, s0, p, classify), pid)
  {
    var s := s0.(buffer := ForgetPending(s0.buffer, p));
    var d := s.buffer.pendings[p].d;
    var i := Resolve(s, d.pid, d.time);
    var m := Detect(e, d.message);
    if i.Some? && s.graph.arena[i.value].run.Some? {
      AttributeQuiet(e, s, p, i.value, pid);
    } else if m.Some? && classify {
      AdoptDenialQuiet(e, s, p, i, m.value, pid);
    } else if i.Some? && classify && e.entitlements.Some? {
      FinalizeCandidateQuiet(e, s, p, i.value, pid);
    } else {
      SameTimesQuiet(s, StoreOrphan(s, p), pid);
    }
  }

  lemma TickOneQuiet(e: Env, s: State, p: nat, now: Time, pid: int)
    requires WF(s) && p < |s.buffer.pendings|
    ensures Quiet(s, TickOne(e, s, p, now), pid)
  {
    match Judge(e, s, p, now) {
      case FinalizeFully => FinalizeQuiet(e, s, p, true, pid);
      case FinalizeLagging => FinalizeQuiet(e, s, p, false, pid);
      case AttributeTo(i) => AttributeQuiet(e, s, p, i, pid);
      case Keep =>
    }
  }

  lemma {:induction false} TickListQuiet(e: Env, s: State, list: seq<nat>, now: Time, pid: int)
    requires WF(s) && InRange(list, |s.buffer.pendings|)
    ensures Quiet(s, TickList(e, s, list, now).0, pid)
    decreases |list|
  {
    if list != [] {
      var n := |list| - 1;
      var s1 := TickList(e, s, list[..n], now).0;
      TickListQuiet(e, s, list[..n], now, pid);
      TickOneQuiet(e, s1, list[n], now, pid);
      QuietTrans(s, s1, TickOne(e, s1, list[n], now), pid);
    }
  }

  lemma TickPidQuiet(e: Env, s: State, q: int, now: Time, pid: int)
    requires WF(s)
    ensures
      var (s1, kept) := TickList(e, s, ListOf(s.buffer.pendingByPID, q), now);
      Quiet(s, s1.(buffer := SetPending(s1.buffer, q, kept)), pid)
  {
    TickListQuiet(e, s, ListOf(s.buffer.pendingByPID, q), now, pid);
  }

  lemma {:induction false} TickPidsQuiet(e: Env, s: State, order: seq<int>, now: Time, pid: int)
    requires WF(s)
    ensures Quiet(s, TickPids(e, s, order, now), pid)
    decreases |order|
  {
    if order != [] {
      var n := |order| - 1;
      TickPidsQuiet(e, s, order[..n], now, pid);
      TickPidQuiet(e, TickPids(e, s, order[..n], now), order[n], now, pid);
      QuietTrans(s, TickPids(e, s, order[..n], now), TickPids(e, s, order, now), pid);
    }
  }

  lemma HandleDenialQuiet(e: Env, s: State, d: Denial, now: Time, pid: int)
    requires WF(s)
    ensures Quiet(s, HandleDenial(e, s, d, now), pid)
  {
    if RouteOf(s, d).NoRow? {
      var s1 := s.(buffer := NewPending(s.buffer, d, now));
      var i := Attributable(s, d);
      if i.Some? {
        AttributeQuiet(e, s1, |s.buffer.pendings|, i.value, pid);
      }
    }
  }

  // ---------------------------------------------------------------------------------------------
  // Eviction

  lemma {:induction false} AllOverResolvesNone(arena: seq<Image>, list: seq<nat>, t: Time)
    requires InRange(list, |arena|)
    requires forall k | 0 <= k < |list| :: arena[list[k]].end.Some? && arena[list[k]].end.value.at < t - TIME_SLACK
    ensures ResolveIn(arena, list, t).None?
    decreases |list|
  {
    if list != [] {
      AllOverResolvesNone(arena, list[..|list| - 1], t);
    }
  }

  /** Evicting images that ended before the cutoff does not show at times a slack after it. */
  lemma {:induction false} RetainedResolves(arena: seq<Image>, list: seq<nat>, cutoff: Time, t: Time, w: Time)
    requires InRange(list, |arena|) && InTurn(arena, list, w) && t >= cutoff + TIME_SLACK
    ensures ResolveIn(arena, Retained(arena, list, cutoff), t) == ResolveIn(arena, list, t)
    decreases |list|
  {
    if list != [] {
      var n := |list| - 1;
      var kept := Retained(arena, list[..n], cutoff);
      RetainedResolves(arena, list[..n], cutoff, t, w);
      assert (kept + [list[n]])[..|kept|] == kept;
      if Evictable(arena[list[n]], cutoff) && arena[list[n]].start <= t + TIME_SLACK {
        assert RanBy(arena[list[n]], w);
        forall k | 0 <= k < n ensures EndedBefore(arena[list[k]], arena[list[n]].start) {
        }
        AllOverResolvesNone(arena, list[..n], t);
      }
    }
  }

  lemma {:induction false} RetainedInTurn(arena: seq<Image>, list: seq<nat>, cutoff: Time, w: Time)
    requires InRange(list, |arena|) && InTurn(arena, list, w)
    ensures InTurn(arena, Retained(arena, list, cutoff), w)
    decreases |list|
  {
    if list != [] {
      var n := |list| - 1;
      var kept := Retained(arena, list[..n], cutoff);
      RetainedInTurn(arena, list[..n], cutoff, w);
      RetainedMembers(arena, list[..n], cutoff);
      forall k | 0 <= k < |kept| ensures EndedBefore(arena[kept[k]], arena[list[n]].start) {
        assert kept[k] in kept;
        var j :| 0 <= j < n && list[..n][j] == kept[k];
        assert EndedBefore(arena[list[j]], arena[list[n]].start);
      }
    }
  }

  lemma EvictedList(e: Env, s: State, now: Time, pid: int)
    requires WF(s)
    ensures ListOf(Evict(e, s, now).index.byPID, pid) == Retained(s.graph.arena, ListOf(s.index.byPID, pid), now - Retention(e))
  {
  }

  predicate StubsRun(arena: seq<Image>) {
    forall i | 0 <= i < |arena| :: arena[i].noToken ==> arena[i].end.None?
  }

  /** Stubs never end, so eviction keeps them. */
  lemma EvictKeepsStubs(e: Env, s: State, now: Time, pid: int)
    requires WF(s) && StubsRun(s.graph.arena) && StubFree(Evict(e, s, now), pid)
    ensures StubFree(s, pid)
  {
    var cutoff := now - Retention(e);
    var list := ListOf(s.index.byPID, pid);
    RetainedMembers(s.graph.arena, list, cutoff);
    EvictedList(e, s, now, pid);
    var kept := Retained(s.graph.arena, list, cutoff);
    forall k | 0 <= k < |list| ensures !s.graph.arena[list[k]].noToken {
      assert s.graph.arena[list[k]].end.None? ==> list[k] in kept;
    }
  }

  /** Eviction leaves the resolution of every time inside the retention window unchanged. */
  lemma EvictionIsTransparent(e: Env, s: State, now: Time, pid: int, t: Time)
    requires WF(s) && InTurn(s.graph.arena, ListOf(s.index.byPID, pid), s.watermark)
    requires t >= now - Retention(e) + TIME_SLACK
    ensures Resolve(Evict(e, s, now), pid, t) == Resolve(s, pid, t)
  {
    EvictedList(e, s, now, pid);
    RetainedResolves(s.graph.arena, ListOf(s.index.byPID, pid), now - Retention(e), t, s.watermark);
  }

  // ---------------------------------------------------------------------------------------------
  // Whole runs

  lemma EndImageStubs(g: Graph, i: nat, end: End)
    requires GraphOk(g) && i < |g.arena| && StubsRun(g.arena) && !g.arena[i].noToken
    ensures StubsRun(EndImage(g, i, end).arena)
  {
  }

  lemma FinishExecStubs(e: Env, g: Graph, ev: Event, i: nat, actor: nat)
    requires GraphOk(g) && i < |g.arena| && actor < |g.arena| && StubsRun(g.arena) && !g.arena[actor].noToken
    ensures StubsRun(FinishExec(e, g, ev, i, actor).arena)
  {
    var g1 := JoinExeced(e, g, ev, i, g.arena[actor].run);
    assert SameTimes(g.arena, g1.arena);
    EndImageStubs(g1, actor, End(ev.time, ByExec, None));
  }

  lemma ExecKeepsStubs(e: Env, s: State, ev: Event)
    requires WF(s) && IndexInv(s.graph.arena, s.index) && StubsRun(s.graph.arena)
    ensures StubsRun(HandleExec(e, s, ev).graph.arena)
  {
    var s1 := SeeBoth(s, ev);
    if ev.process.token !in s.index.images {
      IndexedKeeps(s.graph.arena, s.index, Untracked(ev.process));
    }
    ExecFromKeepsStubs(e, s1, ev);
  }

  lemma ExecFromKeepsStubs(e: Env, s: State, ev: Event)
    requires WF(s) && IndexInv(s.graph.arena, s.index) && StubsRun(s.graph.arena) && ev.process.token in s.index.images
    ensures
      var actor := s.index.images[ev.process.token];
      var s2 := Register(s, Execed(ev, actor, s.graph.arena[actor].parent));
      StubsRun(FinishExec(e, s2.graph, ev, |s.graph.arena|, actor).arena)
  {
    var actor := s.index.images[ev.process.token];
    assert Tracked(s.graph.arena, s.index, ev.process.token, actor);
    FinishExecStubs(e, Register(s, Execed(ev, actor, s.graph.arena[actor].parent)).graph, ev, |s.graph.arena|, actor);
  }

  lemma ForkKeepsStubs(s: State, ev: Event)
    requires WF(s) && StubsRun(s.graph.arena)
    ensures StubsRun(HandleFork(s, ev).graph.arena)
  {
  }

  lemma EventKeepsStubs(e: Env, s: State, ev: Event)
    requires WF(s) && IndexInv(s.graph.arena, s.index) && StubsRun(s.graph.arena)
    ensures StubsRun(HandleES(e, s, ev).graph.arena)
  {
    var s1 := s.(watermark := Later(s.watermark, ev.time));
    match ev.kind {
      case Fork => ForkKeepsStubs(s1, ev);
      case Exec => ExecKeepsStubs(e, s1, ev);
      case Exit =>
        if ev.process.token in s.index.images {
          var i := s.index.images[ev.process.token];
          assert Tracked(s.graph.arena, s.index, ev.process.token, i);
          EndImageStubs(s.graph, i, End(ev.time, ByExit, Some(ev.exitStatus)));
        }
      case OtherKind =>
    }
  }

  lemma {:induction false} StubsRunHolds(e: Env, steps: seq<Step>)
    requires Feasible(e, steps)
    ensures StubsRun(After(e, steps).graph.arena)
    decreases |steps|
  {
    if steps != [] {
      var s := After(e, steps[..|steps| - 1]);
      StubsRunHolds(e, steps[..|steps| - 1]);
      InvHolds(e, steps[..|steps| - 1]);
      StepKeepsStubs(e, s, steps[|steps| - 1]);
    }
  }

  lemma StepKeepsStubs(e: Env, s: State, step: Step)
    requires WF(s) && IndexInv(s.graph.arena, s.index) && StubsRun(s.graph.arena)
    ensures StubsRun(Apply(e, s, step).graph.arena)
  {
    match step {
      case ProcessEvent(ev) => EventKeepsStubs(e, s, ev);
      case DenialLine(d, now) => DenialKeepsStubs(e, s, d, now);
      case TickAt(now, order) => TickPidsStubs(e, s, order, now);
    }
  }

  lemma DenialKeepsStubs(e: Env, s: State, d: Denial, now: Time)
    requires WF(s) && StubsRun(s.graph.arena)
    ensures StubsRun(HandleDenial(e, s, d, now).graph.arena)
  {
    HandleDenialQuiet(e, s, d, now, 0);
  }

  /** Every process event of the run arrives in order. */
  ghost predicate OrderedRun(e: Env, steps: seq<Step>)
    requires Feasible(e, steps)
    decreases |steps|
  {
    steps != [] ==>
      && OrderedRun(e, steps[..|steps| - 1])
      && (steps[|steps| - 1].ProcessEvent? ==> Ordered(After(e, steps[..|steps| - 1]), steps[|steps| - 1].ev))
  }

  lemma TickTimely(e: Env, s: State, now: Time, order: seq<int>, pid: int)
    requires WF(s) && Timely(s, pid) && StubsRun(TickPids(e, s, order, now).graph.arena)
    ensures Timely(Tick(e, s, now, order), pid)
  {
    var s1 := TickPids(e, s, order, now);
    TickPidsQuiet(e, s, order, now, pid);
    QuietTimely(s, s1, pid);
    if StubFree(Tick(e, s, now, order), pid) {
      EvictKeepsStubs(e, s1, now, pid);
      EvictedList(e, s1, now, pid);
      RetainedInTurn(s1.graph.arena, ListOf(s1.index.byPID, pid), now - Retention(e), s1.watermark);
    }
  }

  lemma TickPidsStubs(e: Env, s: State, order: seq<int>, now: Time)
    requires WF(s) && StubsRun(s.graph.arena)
    ensures StubsRun(TickPids(e, s, order, now).graph.arena)
  {
    TickPidsQuiet(e, s, order, now, 0);
  }

  /** In every state of a run whose process events arrive in order, the images of every pid without
    an adoption stub follow one another in time. */
  lemma {:induction false} ImagesRunInTurn(e: Env, steps: seq<Step>, pid: int)
    requires Feasible(e, steps) && OrderedRun(e, steps)
    ensures Timely(After(e, steps), pid)
    decreases |steps|
  {
    if steps != [] {
      var init := steps[..|steps| - 1];
      var s := After(e, init);
      ImagesRunInTurn(e, init, pid);
      InvHolds(e, init);
      StubsRunHolds(e, init);
      StepTimely(e, s, steps[|steps| - 1], pid);
    }
  }

  lemma StepTimely(e: Env, s: State, step: Step, pid: int)
    requires WF(s) && IndexInv(s.graph.arena, s.index) && StubsRun(s.graph.arena) && Timely(s, pid)
    requires step.ProcessEvent? ==> Ordered(s, step.ev)
    ensures Timely(Apply(e, s, step), pid)
  {
    match step {
      case ProcessEvent(ev) =>
        EventTimely(e, s, ev, pid);
      case DenialLine(d, now) =>
        HandleDenialQuiet(e, s, d, now, pid);
        QuietTimely(s, HandleDenial(e, s, d, now), pid);
      case TickAt(now, order) =>
        TickPidsStubs(e, s, order, now);
        TickTimely(e, s, now, order, pid);
    }
  }

  /** The step can still change who the pid was at the settled time t: it discovers a process that
    ran then, or it evicts beyond t. */
  predicate Unsettles(e: Env, s: State, step: Step, pid: int, t: Time)
    requires WF(s)
  {
    match step
    case ProcessEvent(ev) => Discovers(s, ev, pid, t)
    case DenialLine(_, _) => false
    case TickAt(now, _) => now - Retention(e) + TIME_SLACK > t
  }

  lemma TickResolves(e: Env, s: State, now: Time, order: seq<int>, pid: int, t: Time)
    requires WF(s) && Timely(s, pid) && StubsRun(s.graph.arena)
    requires StubFree(Tick(e, s, now, order), pid) && t >= now - Retention(e) + TIME_SLACK
    ensures Resolve(Tick(e, s, now, order), pid, t) == Resolve(s, pid, t) && StubFree(s, pid)
  {
    var s1 := TickPids(e, s, order, now);
    TickPidsStubs(e, s, order, now);
    TickPidsQuiet(e, s, order, now, pid);
    EvictKeepsStubs(e, s1, now, pid);
    QuietResolves(s, s1, pid, t);
    QuietTimely(s, s1, pid);
    EvictionIsTransparent(e, s1, now, pid, t);
  }

  lemma RegisterStubs(s: State, img: Image, pid: int)
    requires WF(s) && FreshImage(img, |s.graph.arena|) && StubFree(Register(s, img), pid)
    ensures StubFree(s, pid)
  {
    var arena := s.graph.arena + [img];
    var list := ListOf(s.index.byPID, pid);
    InsertMembers(arena, list, |s.graph.arena|);
    StubFreeBack(arena, list, ListOf(Register(s, img).index.byPID, pid));
    assert forall k | 0 <= k < |list| :: arena[list[k]] == s.graph.arena[list[k]];
  }

  lemma SameIdentitiesStubs(s: State, g: Graph, pid: int)
    requires WF(s) && WF(s.(graph := g)) && SameIdentities(s.graph.arena, g.arena) && StubFree(s.(graph := g), pid)
    ensures StubFree(s, pid)
  {
    var list := ListOf(s.index.byPID, pid);
    assert forall k | 0 <= k < |list| :: SameImage(s.graph.arena[list[k]], g.arena[list[k]]);
  }

  lemma SeeBothStubs(s: State, ev: Event, pid: int)
    requires WF(s) && StubFree(SeeBoth(s, ev), pid)
    ensures StubFree(s, pid)
  {
    if ev.process.token !in s.index.images {
      RegisterStubs(s, Untracked(ev.process), pid);
    }
  }

  lemma ForkStubs(s: State, ev: Event, pid: int)
    requires WF(s) && StubFree(HandleFork(s, ev), pid)
    ensures StubFree(s, pid)
  {
    var s1 := SeeBoth(s, ev);
    if ev.target.token !in s1.index.images {
      var parent := s1.index.images[ev.process.token];
      var img := s1.graph.arena[parent];
      var child := Forked(ev, parent, img.args, img.cwd);
      var s2 := Register(s1, child);
      if img.run.Some? {
        JoinFrame(s2.graph, |s1.graph.arena|, img.run.value);
        SameIdentitiesStubs(s2, Join(s2.graph, |s1.graph.arena|, img.run.value), pid);
      }
      RegisterStubs(s1, child, pid);
    }
    SeeBothStubs(s, ev, pid);
  }

  lemma ExecStubs(e: Env, s: State, ev: Event, pid: int)
    requires WF(s) && StubFree(HandleExec(e, s, ev), pid)
    ensures StubFree(s, pid)
  {
    var s1 := SeeBoth(s, ev);
    if ev.target.token !in s1.index.images {
      var actor := s1.index.images[ev.process.token];
      var img := Execed(ev, actor, s1.graph.arena[actor].parent);
      var s2 := Register(s1, img);
      FinishExecFrame(e, s2.graph, ev, |s1.graph.arena|, actor);
      SameIdentitiesStubs(s2, FinishExec(e, s2.graph, ev, |s1.graph.arena|, actor), pid);
      RegisterStubs(s1, img, pid);
    }
    SeeBothStubs(s, ev, pid);
  }

  /** Process events remove no stub. */
  lemma EventStubs(e: Env, s: State, ev: Event, pid: int)
    requires WF(s) && StubFree(HandleES(e, s, ev), pid)
    ensures StubFree(s, pid)
  {
    var s1 := s.(watermark := Later(s.watermark, ev.time));
    match ev.kind {
      case Fork => ForkStubs(s1, ev, pid);
      case Exec => ExecStubs(e, s1, ev, pid);
      case Exit =>
        if ev.process.token in s.index.images {
          var i := s.index.images[ev.process.token];
          EndImageFrame(s.graph, i, End(ev.time, ByExit, Some(ev.exitStatus)));
          SameIdentitiesStubs(s1, EndImage(s.graph, i, End(ev.time, ByExit, Some(ev.exitStatus))), pid);
        }
      case OtherKind =>
    }
  }

  /** The steps of a run after the first n leave time t of the pid settled. */
  ghost predicate StaysSettled(e: Env, steps: seq<Step>, n: nat, pid: int, t: Time)
    requires Feasible(e, steps) && n <= |steps|
    decreases |steps|
  {
    n < |steps| ==>
      && StaysSettled(e, steps[..|steps| - 1], n, pid, t)
      && !Unsettles(e, After(e, steps[..|steps| - 1]), steps[|steps| - 1], pid, t)
  }

  ghost function StateAt(e: Env, steps: seq<Step>, n: nat): (s: State)
    requires Feasible(e, steps) && n <= |steps|
    ensures WF(s)
    decreases |steps|
  {
    if n == |steps| then After(e, steps) else StateAt(e, steps[..|steps| - 1], n)
  }

  lemma {:induction false} WatermarkGrows(e: Env, steps: seq<Step>, n: nat)
    requires Feasible(e, steps) && n <= |steps|
    ensures StateAt(e, steps, n).watermark <= After(e, steps).watermark
    decreases |steps|
  {
    if n < |steps| {
      var init := steps[..|steps| - 1];
      WatermarkGrows(e, init, n);
      StepWatermark(e, After(e, init), steps[|steps| - 1]);
    }
  }

  lemma StepWatermark(e: Env, s: State, step: Step)
    requires WF(s)
    ensures s.watermark <= Apply(e, s, step).watermark
  {
    match step {
      case ProcessEvent(ev) =>
      case DenialLine(d, now) => HandleDenialQuiet(e, s, d, now, 0);
      case TickAt(now, order) => TickPidsQuiet(e, s, order, now, 0);
    }
  }

  /** Over whole runs in order: once the watermark has passed t, the pid resolves to the same image
    at t ever after, so a denial decided now or at any later tick inside the retention window is
    attributed to the same image. */
  lemma {:induction false} AttributionIsStable(e: Env, steps: seq<Step>, n: nat, pid: int, t: Time)
    requires Feasible(e, steps) && OrderedRun(e, steps) && n <= |steps|
    requires CaughtUp(StateAt(e, steps, n), t) && StaysSettled(e, steps, n, pid, t)
    requires StubFree(After(e, steps), pid)
    ensures Resolve(After(e, steps), pid, t) == Resolve(StateAt(e, steps, n), pid, t)
    decreases |steps|
  {
    if n < |steps| {
      var init := steps[..|steps| - 1];
      var s := After(e, init);
      InvHolds(e, init);
      WatermarkGrows(e, init, n);
      StubsRunHolds(e, init);
      ImagesRunInTurn(e, init, pid);
      StepResolves(e, s, steps[|steps| - 1], pid, t);
      AttributionIsStable(e, init, n, pid, t);
    }
  }

  /** A step that does not unsettle a settled time leaves its resolution alone. */
  lemma StepResolves(e: Env, s: State, step: Step, pid: int, t: Time)
    requires WF(s) && IndexInv(s.graph.arena, s.index) && StubsRun(s.graph.arena) && Timely(s, pid)
    requires CaughtUp(s, t) && !Unsettles(e, s, step, pid, t) && StubFree(Apply(e, s, step), pid)
    requires step.ProcessEvent? ==> Ordered(s, step.ev)
    ensures Resolve(Apply(e, s, step), pid, t) == Resolve(s, pid, t) && StubFree(s, pid)
  {
    match step {
      case ProcessEvent(ev) =>
        EventStubs(e, s, ev, pid);
        WatermarkIsFinal(e, s, ev, pid, t);
      case DenialLine(d, now) =>
        HandleDenialQuiet(e, s, d, now, pid);
        QuietResolves(s, HandleDenial(e, s, d, now), pid, t);
      case TickAt(now, order) =>
        TickResolves(e, s, now, order, pid, t);
    }
  }

  // ---------------------------------------------------------------------------------------------
  // What a visit changes about the past

  lemma SameTimesResolve(s: State, s': State, pid: int, t: Time)
    requires WF(s) && WF(s') && s'.index == s.index && SameTimes(s.graph.arena, s'.graph.arena)
    ensures Resolve(s', pid, t) == Resolve(s, pid, t)
  {
    var a, b := s.graph.arena, s'.graph.arena;
    forall i | 0 <= i < |a| ensures OnlyEnds(a[i], b[i], t - TIME_SLACK) {
      assert Timed(a[i], b[i]);
    }
    LaterEndsResolveAlike(a, b, ListOf(s.index.byPID, pid), t);
  }

  /** The visit of denial p will create a stub for the pid, and of the images listed for the pid none
    started after the stub's zero time and by t. */
  predicate WillStub(e: Env, s: State, p: nat, now: Time, pid: int, t: Time)
    requires WF(s) && p < |s.buffer.pendings|
  {
    var d := s.buffer.pendings[p].d;
    && Judge(e, s, p, now).FinalizeFully? && Detect(e, d.message).Some?
    && d.pid == pid && Resolve(s, pid, d.time).None?
    && Covers(s.graph.arena + [Stub(pid)], ListOf(s.index.byPID, pid), |s.graph.arena|, t)
  }

  lemma JoinAndAttributeResolves(e: Env, s: State, p: nat, i: nat, r: nat, pid: int, t: Time)
    requires WF(s) && p < |s.buffer.pendings| && i < |s.graph.arena| && r < |s.graph.runs|
    ensures
      var s1 := s.(graph := Join(s.graph, i, r));
      WF(s1) && s1.graph.arena[i].run.Some? && Resolve(Attribute(e, s1, p, i), pid, t) == Resolve(s, pid, t)
  {
    var s1 := s.(graph := Join(s.graph, i, r));
    SameTimesResolve(s, s1, pid, t);
    AttributeResolves(e, s1, p, i, pid, t);
  }

  lemma AttributeResolves(e: Env, s: State, p: nat, i: nat, pid: int, t: Time)
    requires WF(s) && p < |s.buffer.pendings| && i < |s.graph.arena| && s.graph.arena[i].run.Some?
    ensures Resolve(Attribute(e, s, p, i), pid, t) == Resolve(s, pid, t)
  {
    SameTimesResolve(s, Attribute(e, s, p, i), pid, t);
  }

  lemma AdoptDenialResolves(e: Env, s: State, p: nat, i: Option<nat>, m: Match, pid: int, t: Time)
    requires Core(s) && p < |s.buffer.pendings| && (i.Some? ==> i.value < |s.graph.arena|)
    ensures
      var d := s.buffer.pendings[p].d;
      Resolve(AdoptDenial(e, s, p, i, m), pid, t)
        == if i.None? && d.pid == pid && Covers(s.graph.arena + [Stub(pid)], ListOf(s.index.byPID, pid), |s.graph.arena|, t)
           then Some(|s.graph.arena|) else Resolve(s, pid, t)
  {
    var d := s.buffer.pendings[p].d;
    var s1 := Adopt(s, m, d);
    var r := s1.caches.adopted[AdoptionKey(m)];
    SameTimesResolve(s, s1, pid, t);
    if i.Some? {
      JoinAndAttributeResolves(e, s1, p, i.value, r, pid, t);
    } else {
      RegisterResolves(s1, Stub(d.pid), pid, t);
      JoinAndAttributeResolves(e, Register(s1, Stub(d.pid)), p, |s1.graph.arena|, r, pid, t);
    }
  }

  lemma CandidateResolves(e: Env, s: State, p: nat, i: nat, pid: int, t: Time)
    requires WF(s) && p < |s.buffer.pendings| && i < |s.graph.arena| && e.entitlements.Some?
    ensures Resolve(FinalizeCandidate(e, s, p, i), pid, t) == Resolve(s, pid, t)
  {
    if IsCandidate(e, s, i) {
      var s1 := s.(caches := CheckedEntitlement(e, s, i), graph := JoinCandidate(s.graph, i));
      JoinCandidateTimes(s.graph, i);
      SameTimesResolve(s, s1, pid, t);
      AttributeResolves(e, s1, p, i, pid, t);
    } else {
      SameTimesResolve(s, FinalizeCandidate(e, s, p, i), pid, t);
    }
  }

  lemma FinalizeResolves(e: Env, s0: State, p: nat, classify: bool, pid: int, t: Time)
    requires Core(s0) && p < |s0.buffer.pendings|
    ensures
      var d := s0.buffer.pendings[p].d;
      var stubs := classify && Detect(e, d.message).Some? && d.pid == pid && Resolve(s0, pid, d.time).None?
        && Covers(s0.graph.arena + [Stub(pid)], ListOf(s0.index.byPID, pid), |s0.graph.arena|, t);
      Resolve(Finalize(e, s0, p, classify), pid, t) == if stubs then Some(|s0.graph.arena|) else Resolve(s0, pid, t)
  {
    var s := s0.(buffer := ForgetPending(s0.buffer, p));
    var d := s.buffer.pendings[p].d;
    var i := Resolve(s, d.pid, d.time);
    var m := Detect(e, d.message);
    if i.Some? && s.graph.arena[i.value].run.Some? {
      AttributeResolves(e, s, p, i.value, pid, t);
    } else if m.Some? && classify {
      AdoptDenialResolves(e, s, p, i, m.value, pid, t);
    } else if i.Some? && classify && e.entitlements.Some? {
      CandidateResolves(e, s, p, i.value, pid, t);
    } else {
      SameTimesResolve(s, StoreOrphan(s, p), pid, t);
    }
  }

  /** One visit, in any state: it changes who a pid was at a time if and only if it creates a stub for the
    pid and nothing of the pid is known to have started by that time; then the stub it is. */
  lemma VisitResolves(e: Env, s: State, p: nat, now: Time, pid: int, t: Time)
    requires Core(s) && p < |s.buffer.pendings|
    ensures Resolve(TickOne(e, s, p, now), pid, t) == Resolve(s, pid, t) <==> !WillStub(e, s, p, now, pid, t)
    ensures WillStub(e, s, p, now, pid, t) ==> Resolve(TickOne(e, s, p, now), pid, t) == Some(|s.graph.arena|)
  {
    match Judge(e, s, p, now) {
      case FinalizeFully => FinalizeResolves(e, s, p, true, pid, t);
      case FinalizeLagging => FinalizeResolves(e, s, p, false, pid, t);
      case AttributeTo(i) => AttributeResolves(e, s, p, i, pid, t);
      case Keep =>
    }
  }
}
