/** When buffered denials are decided, and on what evidence runs are created. */
module Decisions {
  import opened Events
  import opened Tables
  import opened Model
  import opened Handlers
  import opened Invariant
  import opened Behaviour
  import opened Traversal
  import BI = BufferInvariants
  import Fates

  /** Process events have passed the denial's time and its buffer window is over. */
  predicate Ripe(e: Env, watermark: Time, q: Pending, now: Time) {
    watermark > q.d.time + TIME_SLACK && now - q.arrived >= e.buffer
  }

  /** The denial has waited for a lagging event stream as long as it may. */
  predicate Capped(e: Env, q: Pending, now: Time) {
    now - q.arrived >= LAG_CAP_FACTOR * e.buffer
  }

  // ---------------------------------------------------------------------------------------------
  // Runs are created only on complete evidence

  /** The runs grow by at most one, of a kind that needs the denial p to be ripe. */
  predicate CreatesFor(a: seq<Run>, b: seq<Run>, ripe: bool) {
    && RunsGrow(a, b)
    && |b| <= |a| + 1
    && (|b| > |a| ==> ripe && (b[|a|].kind == Adopted || b[|a|].kind == SandboxInit))
  }

  lemma FinalizeCreates(e: Env, s: State, p: nat, classify: bool)
    requires WF(s) && p < |s.buffer.pendings|
    ensures CreatesFor(s.graph.runs, Finalize(e, s, p, classify).graph.runs, classify)
    ensures !classify ==> Finalize(e, s, p, classify).caches == s.caches
  {
    var s1 := s.(buffer := ForgetPending(s.buffer, p));
    var d := s1.buffer.pendings[p].d;
    var i := Resolve(s1, d.pid, d.time);
    var m := Detect(e, d.message);
    if i.Some? && s1.graph.arena[i.value].run.Some? {
    } else if m.Some? && classify {
      AdoptCreates(e, s1, p, i, m.value);
    } else if i.Some? && classify && e.entitlements.Some? {
      if IsCandidate(e, s1, i.value) {
        CandidateCreates(s1.graph, i.value);
      }
    }
  }

  lemma AdoptCreates(e: Env, s: State, p: nat, i: Option<nat>, m: Match)
    requires WF(s) && p < |s.buffer.pendings| && (i.Some? ==> i.value < |s.graph.arena|)
    ensures CreatesFor(s.graph.runs, AdoptDenial(e, s, p, i, m).graph.runs, true)
  {
    var d := s.buffer.pendings[p].d;
    var s1 := Adopt(s, m, d);
    AdoptAddsOne(s, m, d);
    var k := if i.Some? then i.value else |s1.graph.arena|;
    var s2 := if i.Some? then s1 else Register(s1, Stub(d.pid));
    JoinedRunsStay(e, s2, p, k, s1.caches.adopted[AdoptionKey(m)]);
    ThenStay(s.graph.runs, s1.graph.runs, AdoptDenial(e, s, p, i, m).graph.runs);
  }

  lemma ThenStay(a: seq<Run>, b: seq<Run>, c: seq<Run>)
    requires CreatesFor(a, b, true) && RunsGrow(b, c) && |c| == |b|
    ensures CreatesFor(a, c, true)
  {
  }

  lemma JoinedRunsStay(e: Env, s: State, p: nat, k: nat, r: nat)
    requires WF(s) && p < |s.buffer.pendings| && k < |s.graph.arena| && r < |s.graph.runs|
    ensures
      var s1 := s.(graph := Join(s.graph, k, r));
      && s1.graph.arena[k].run.Some?
      && RunsGrow(s.graph.runs, Attribute(e, s1, p, k).graph.runs)
      && |Attribute(e, s1, p, k).graph.runs| == |s.graph.runs|
  {
    AttributeCreates(e, s.(graph := Join(s.graph, k, r)), p, k);
  }

  lemma AdoptAddsOne(s: State, m: Match, d: Denial)
    requires WF(s)
    ensures CreatesFor(s.graph.runs, Adopt(s, m, d).graph.runs, true)
  {
  }

  lemma CandidateCreates(g: Graph, i: nat)
    requires GraphOk(g) && i < |g.arena| && Eligible(g.arena, i)
    ensures CreatesFor(g.runs, JoinCandidate(g, i).runs, true)
  {
    var root := g.arena[RootOf(g.arena, i)];
    var path := PathTo(g.arena, i);
    if root.run.Some? {
      JoinAllCreatesNone(g, path, root.run.value);
    } else {
      JoinAllCreatesNone(AddRun(g, SandboxInitRow(root), false), path, |g.runs|);
    }
  }

  lemma JoinAllCreatesNone(g: Graph, path: seq<nat>, r: nat)
    requires GraphOk(g) && InRange(path, |g.arena|) && r < |g.runs|
    ensures RunsGrow(g.runs, MaybeEndRun(JoinAll(g, path, r), r).runs)
    ensures |MaybeEndRun(JoinAll(g, path, r), r).runs| == |g.runs|
  {
    JoinAllGrows(g, path, r);
  }

  lemma TickOneCreates(e: Env, s: State, p: nat, now: Time)
    requires WF(s) && p < |s.buffer.pendings|
    ensures CreatesFor(s.graph.runs, TickOne(e, s, p, now).graph.runs, Ripe(e, s.watermark, s.buffer.pendings[p], now))
  {
    match Judge(e, s, p, now) {
      case FinalizeFully => FinalizeCreates(e, s, p, true);
      case FinalizeLagging => FinalizeCreates(e, s, p, false);
      case AttributeTo(i) => AttributeCreates(e, s, p, i);
      case Keep =>
    }
  }

  lemma AttributeCreates(e: Env, s: State, p: nat, i: nat)
    requires WF(s) && p < |s.buffer.pendings| && i < |s.graph.arena| && s.graph.arena[i].run.Some?
    ensures CreatesFor(s.graph.runs, Attribute(e, s, p, i).graph.runs, false)
  {
  }

  lemma TickOneWatermark(e: Env, s: State, p: nat, now: Time)
    requires WF(s) && p < |s.buffer.pendings|
    ensures TickOne(e, s, p, now).watermark == s.watermark
  {
  }

  // ---------------------------------------------------------------------------------------------
  // A new run is the run of the denial it was created for

  lemma {:induction false} JoinAllRuns(g: Graph, path: seq<nat>, r: nat)
    requires GraphOk(g) && InRange(path, |g.arena|) && r < |g.runs|
    ensures forall i | 0 <= i < |g.arena| ::
      JoinAll(g, path, r).arena[i].run == if g.arena[i].run.None? && i in path then Some(r) else g.arena[i].run
    decreases |path|
  {
    if path != [] {
      JoinAllRuns(g, path[..|path| - 1], r);
      assert path == path[..|path| - 1] + [path[|path| - 1]];
    }
  }

  /** Denial p was stored, in this run. */
  predicate StoredIn(s: State, p: nat, r: nat) {
    && p < |s.buffer.pendings| && s.buffer.pendings[p].fate.Stored?
    && s.buffer.pendings[p].fate.row < |s.graph.db.denials|
    && s.graph.db.denials[s.buffer.pendings[p].fate.row].run == r
  }

  lemma AttributeStores(e: Env, s: State, p: nat, i: nat)
    requires WF(s) && p < |s.buffer.pendings| && i < |s.graph.arena| && s.graph.arena[i].run.Some?
    ensures StoredIn(Attribute(e, s, p, i), p, s.graph.arena[i].run.value)
  {
  }

  lemma AdoptStores(e: Env, s: State, p: nat, i: Option<nat>, m: Match)
    requires WF(s) && p < |s.buffer.pendings| && (i.Some? ==> i.value < |s.graph.arena| && s.graph.arena[i.value].run.None?)
    requires |AdoptDenial(e, s, p, i, m).graph.runs| > |s.graph.runs|
    ensures StoredIn(AdoptDenial(e, s, p, i, m), p, |s.graph.runs|)
  {
    var d := s.buffer.pendings[p].d;
    var s1 := Adopt(s, m, d);
    var k := if i.Some? then i.value else |s1.graph.arena|;
    var s2 := if i.Some? then s1 else Register(s1, Stub(d.pid));
    var r := s1.caches.adopted[AdoptionKey(m)];
    AttributeCreates(e, s2.(graph := Join(s2.graph, k, r)), p, k);
    assert AdoptionKey(m) !in s.caches.adopted;
    AttributeStores(e, s2.(graph := Join(s2.graph, k, r)), p, k);
  }

  lemma CandidateJoins(g: Graph, i: nat)
    requires GraphOk(g) && i < |g.arena| && Eligible(g.arena, i) && g.arena[i].run.None?
    requires |JoinCandidate(g, i).runs| > |g.runs|
    ensures JoinCandidate(g, i).arena[i].run == Some(|g.runs|)
  {
    var root := g.arena[RootOf(g.arena, i)];
    var path := PathTo(g.arena, i);
    assert i in path;
    if root.run.Some? {
      JoinAllCreatesNone(g, path, root.run.value);
    } else {
      JoinAllRuns(AddRun(g, SandboxInitRow(root), false), path, |g.runs|);
    }
  }

  lemma CandidateStores(e: Env, s: State, p: nat, i: nat)
    requires WF(s) && p < |s.buffer.pendings| && i < |s.graph.arena| && e.entitlements.Some? && s.graph.arena[i].run.None?
    requires |FinalizeCandidate(e, s, p, i).graph.runs| > |s.graph.runs|
    ensures StoredIn(FinalizeCandidate(e, s, p, i), p, |s.graph.runs|)
  {
    if IsCandidate(e, s, i) {
      var s1 := s.(caches := CheckedEntitlement(e, s, i), graph := JoinCandidate(s.graph, i));
      AttributeCreates(e, s1, p, i);
      CandidateJoins(s.graph, i);
      AttributeStores(e, s1, p, i);
    }
  }

  lemma FinalizeStores(e: Env, s0: State, p: nat, classify: bool)
    requires WF(s0) && p < |s0.buffer.pendings| && |Finalize(e, s0, p, classify).graph.runs| > |s0.graph.runs|
    ensures StoredIn(Finalize(e, s0, p, classify), p, |s0.graph.runs|)
  {
    var s := s0.(buffer := ForgetPending(s0.buffer, p));
    var d := s.buffer.pendings[p].d;
    var i := Resolve(s, d.pid, d.time);
    var m := Detect(e, d.message);
    if i.Some? && s.graph.arena[i.value].run.Some? {
      AttributeCreates(e, s, p, i.value);
    } else if m.Some? && classify {
      AdoptStores(e, s, p, i, m.value);
    } else if i.Some? && classify && e.entitlements.Some? {
      CandidateStores(e, s, p, i.value);
    }
  }

  lemma TickOneStores(e: Env, s: State, p: nat, now: Time)
    requires WF(s) && p < |s.buffer.pendings| && |TickOne(e, s, p, now).graph.runs| > |s.graph.runs|
    ensures StoredIn(TickOne(e, s, p, now), p, |s.graph.runs|)
  {
    match Judge(e, s, p, now) {
      case FinalizeFully => FinalizeStores(e, s, p, true);
      case FinalizeLagging => FinalizeStores(e, s, p, false);
      case AttributeTo(i) => AttributeCreates(e, s, p, i);
      case Keep =>
    }
  }

  /** Denial p was buffered and ripe before the tick, and is stored in run r now. */
  predicate IsEvidence(e: Env, watermark: Time, was: seq<Pending>, now: Time, pendings: seq<Pending>, denials: seq<DenialRow>, r: nat, p: nat) {
    && p < |was| && p < |pendings|
    && was[p].fate == Buffered && Ripe(e, watermark, was[p], now)
    && pendings[p].fate.Stored? && pendings[p].fate.row < |denials| && denials[pendings[p].fate.row].run == r
  }

  ghost predicate HasEvidence(e: Env, watermark: Time, was: seq<Pending>, now: Time, pendings: seq<Pending>, denials: seq<DenialRow>, r: nat) {
    exists p: nat :: IsEvidence(e, watermark, was, now, pendings, denials, r, p)
  }

  /** The state after some decisions of one tick: each new run was created for a ripe denial. */
  ghost predicate RunsJustified(e: Env, s: State, now: Time, watermark: Time, pendings: seq<Pending>, g: Graph) {
    && watermark == s.watermark
    && Fates.Final(s.buffer.pendings, pendings)
    && RunsGrow(s.graph.runs, g.runs)
    && forall r | |s.graph.runs| <= r < |g.runs| ::
         && (g.runs[r].kind == Adopted || g.runs[r].kind == SandboxInit)
         && HasEvidence(e, s.watermark, s.buffer.pendings, now, pendings, g.db.denials, r)
  }

  /** Evidence stays when another denial is decided. */
  lemma EvidenceStays(e: Env, w: Time, was: seq<Pending>, now: Time, s1: State, s2: State, r: nat, p: nat)
    requires Undecided(s1, p) && (s2 == s1 || BI.Decides(s1, s2, p))
    requires HasEvidence(e, w, was, now, s1.buffer.pendings, s1.graph.db.denials, r)
    ensures HasEvidence(e, w, was, now, s2.buffer.pendings, s2.graph.db.denials, r)
  {
    var q: nat :| IsEvidence(e, w, was, now, s1.buffer.pendings, s1.graph.db.denials, r, q);
    assert IsEvidence(e, w, was, now, s2.buffer.pendings, s2.graph.db.denials, r, q);
  }

  /** A decision leaves the watermark, what the denials say, and decided denials alone. */
  lemma TickOneFinal(e: Env, s: State, now: Time, s1: State, p: nat)
    requires WF(s1) && Undecided(s1, p) && Fates.Final(s.buffer.pendings, s1.buffer.pendings)
    ensures Fates.Final(s.buffer.pendings, TickOne(e, s1, p, now).buffer.pendings)
  {
    TickOneDecides(e, s1, p, now);
  }

  lemma TickOneJustified(e: Env, s: State, now: Time, s1: State, p: nat)
    requires Core(s1) && Undecided(s1, p) && |s1.buffer.pendings| == |s.buffer.pendings|
    requires RunsJustified(e, s, now, s1.watermark, s1.buffer.pendings, s1.graph)
    ensures
      var s2 := TickOne(e, s1, p, now);
      RunsJustified(e, s, now, s2.watermark, s2.buffer.pendings, s2.graph)
  {
    var s2 := TickOne(e, s1, p, now);
    TickOneFinal(e, s, now, s1, p);
    TickOneCreates(e, s1, p, now);
    TickOneWatermark(e, s1, p, now);
    TickOneDecides(e, s1, p, now);
    forall r | |s.graph.runs| <= r < |s2.graph.runs|
      ensures s2.graph.runs[r].kind == Adopted || s2.graph.runs[r].kind == SandboxInit
      ensures HasEvidence(e, s.watermark, s.buffer.pendings, now, s2.buffer.pendings, s2.graph.db.denials, r)
    {
      if r < |s1.graph.runs| {
        EvidenceStays(e, s.watermark, s.buffer.pendings, now, s1, s2, r, p);
      } else {
        TickOneStores(e, s1, p, now);
        assert IsEvidence(e, s.watermark, s.buffer.pendings, now, s2.buffer.pendings, s2.graph.db.denials, r, p);
      }
    }
  }

  lemma TickJustified(e: Env, s: State, now: Time, order: seq<int>)
    requires Inv(s)
    ensures
      var s' := Tick(e, s, now, order);
      RunsJustified(e, s, now, s'.watermark, s'.buffer.pendings, s'.graph)
  {
    var Q := (t: Time, x: Index, pendings: seq<Pending>, g: Graph) =>
      |pendings| == |s.buffer.pendings| && RunsJustified(e, s, now, t, pendings, g);
    forall s1: State, p: nat | Core(s1) && Undecided(s1, p) && Holds(Q, s1) ensures Holds(Q, TickOne(e, s1, p, now)) {
      TickOneJustified(e, s, now, s1, p);
    }
    TickStable(e, s, order, now, Q);
  }

  /** Over every run: a process event creates only sandbox-exec runs, and only for a sandbox-exec
    exec; a denial line creates none; a tick creates adopted and sandbox-init runs, each for a
    denial that was buffered and ripe, and that is stored in it. */
  lemma RunsNeedEvidence(e: Env, steps: seq<Step>)
    requires Feasible(e, steps) && steps != []
    ensures
      var s := After(e, steps[..|steps| - 1]);
      var s' := After(e, steps);
      var step := steps[|steps| - 1];
      && RunsGrow(s.graph.runs, s'.graph.runs)
      && (|s'.graph.runs| > |s.graph.runs| ==>
            match step
            case ProcessEvent(ev) => ev.kind == Exec && ev.target.path == SANDBOX_EXEC_PATH
            case DenialLine(_, _) => false
            case TickAt(_, _) => true)
      && (forall r | |s.graph.runs| <= r < |s'.graph.runs| ::
            && ((s'.graph.runs[r].kind == SandboxExec) <==> step.ProcessEvent?)
            && (step.TickAt? ==>
                  HasEvidence(e, s.watermark, s.buffer.pendings, step.now, s'.buffer.pendings, s'.graph.db.denials, r)))
  {
    var s := After(e, steps[..|steps| - 1]);
    InvHolds(e, steps[..|steps| - 1]);
    match steps[|steps| - 1] {
      case ProcessEvent(ev) => HandleESCreates(e, s, ev);
      case DenialLine(d, now) => HandleDenialCreates(e, s, d, now);
      case TickAt(now, order) => TickJustified(e, s, now, order);
    }
  }

  lemma HandleESCreates(e: Env, s: State, ev: Event)
    requires WF(s)
    ensures OnlySandboxExec(s.graph.runs, HandleES(e, s, ev).graph.runs, ev)
    ensures |HandleES(e, s, ev).graph.runs| > |s.graph.runs| ==> ev.kind == Exec
  {
    var s1 := s.(watermark := Later(s.watermark, ev.time));
    match ev.kind {
      case Fork => HandleForkCreates(s1, ev);
      case Exec => HandleExecCreates(e, s1, ev);
      case Exit => HandleExitCreates(s1, ev);
      case OtherKind =>
    }
  }

  lemma HandleForkCreates(s: State, ev: Event)
    requires WF(s)
    ensures RunsGrow(s.graph.runs, HandleFork(s, ev).graph.runs) && |HandleFork(s, ev).graph.runs| == |s.graph.runs|
  {
  }

  lemma HandleExitCreates(s: State, ev: Event)
    requires WF(s)
    ensures RunsGrow(s.graph.runs, HandleExit(s, ev).graph.runs) && |HandleExit(s, ev).graph.runs| == |s.graph.runs|
  {
  }

  lemma HandleExecCreates(e: Env, s: State, ev: Event)
    requires WF(s)
    ensures OnlySandboxExec(s.graph.runs, HandleExec(e, s, ev).graph.runs, ev)
  {
    var s1 := SeeBoth(s, ev);
    if ev.target.token !in s1.index.images {
      var actor := s1.index.images[ev.process.token];
      var s2 := Register(s1, Execed(ev, actor, s1.graph.arena[actor].parent));
      FinishExecCreates(e, s2.graph, ev, |s1.graph.arena|, actor);
    }
  }

  predicate OnlySandboxExec(a: seq<Run>, b: seq<Run>, ev: Event) {
    && RunsGrow(a, b)
    && (|b| > |a| ==> ev.target.path == SANDBOX_EXEC_PATH)
    && (forall r | |a| <= r < |b| :: b[r].kind == SandboxExec)
  }

  lemma FinishExecCreates(e: Env, g: Graph, ev: Event, i: nat, actor: nat)
    requires GraphOk(g) && i < |g.arena| && actor < |g.arena|
    ensures OnlySandboxExec(g.runs, FinishExec(e, g, ev, i, actor).runs, ev)
  {
    var g1 := JoinExeced(e, g, ev, i, g.arena[actor].run);
    assert OnlySandboxExec(g.runs, g1.runs, ev);
    EndImageGrows(g1, actor, End(ev.time, ByExec, None));
  }

  lemma HandleDenialCreates(e: Env, s: State, d: Denial, now: Time)
    requires WF(s)
    ensures |HandleDenial(e, s, d, now).graph.runs| == |s.graph.runs|
    ensures RunsGrow(s.graph.runs, HandleDenial(e, s, d, now).graph.runs)
  {
  }

  // ---------------------------------------------------------------------------------------------
  // Nothing waits too long

  predicate Overdue(e: Env, watermark: Time, q: Pending, now: Time) {
    Ripe(e, watermark, q, now) || Capped(e, q, now)
  }

  predicate NoneOverdue(e: Env, watermark: Time, pendings: seq<Pending>, list: seq<nat>, now: Time) {
    forall k | 0 <= k < |list| :: list[k] < |pendings| && !Overdue(e, watermark, pendings[list[k]], now)
  }

  lemma TickOneStays(e: Env, s: State, p: nat, now: Time, list: seq<nat>)
    requires WF(s) && p < |s.buffer.pendings|
    requires NoneOverdue(e, s.watermark, s.buffer.pendings, list, now)
    ensures
      var s' := TickOne(e, s, p, now);
      NoneOverdue(e, s'.watermark, s'.buffer.pendings, list, now)
  {
    TickOneWatermark(e, s, p, now);
    TickOneDecides(e, s, p, now);
  }

  /** What a list visit keeps is not overdue, and other lists that were not overdue stay so. */
  lemma {:induction false} TickListTimely(e: Env, s: State, list: seq<nat>, now: Time, other: seq<nat>)
    requires WF(s) && InRange(list, |s.buffer.pendings|)
    requires NoneOverdue(e, s.watermark, s.buffer.pendings, other, now)
    ensures
      var (s', kept) := TickList(e, s, list, now);
      && s'.watermark == s.watermark
      && NoneOverdue(e, s'.watermark, s'.buffer.pendings, kept, now)
      && NoneOverdue(e, s'.watermark, s'.buffer.pendings, other, now)
    decreases |list|
  {
    if list != [] {
      var n := |list| - 1;
      TickListTimely(e, s, list[..n], now, other);
      var (s1, kept) := TickList(e, s, list[..n], now);
      TickOneWatermark(e, s1, list[n], now);
      TickOneStays(e, s1, list[n], now, kept);
      TickOneStays(e, s1, list[n], now, other);
    }
  }

  ghost predicate VisitedTimely(e: Env, s: State, now: Time, order: seq<int>) {
    forall pid | pid in order && pid in s.buffer.pendingByPID ::
      NoneOverdue(e, s.watermark, s.buffer.pendings, s.buffer.pendingByPID[pid], now)
  }

  /** Visiting one more pid. */
  lemma TickPidTimely(e: Env, s: State, order: seq<int>, pid: int, now: Time)
    requires WF(s) && VisitedTimely(e, s, now, order)
    ensures
      var (s1, kept) := TickList(e, s, ListOf(s.buffer.pendingByPID, pid), now);
      var s2 := s1.(buffer := SetPending(s1.buffer, pid, kept));
      s2.watermark == s.watermark && VisitedTimely(e, s2, now, order + [pid])
  {
    var list := ListOf(s.buffer.pendingByPID, pid);
    var (s1, kept) := TickList(e, s, list, now);
    var s2 := s1.(buffer := SetPending(s1.buffer, pid, kept));
    TickListTimely(e, s, list, now, []);
    forall q | q in order + [pid] && q in s2.buffer.pendingByPID
      ensures NoneOverdue(e, s2.watermark, s2.buffer.pendings, s2.buffer.pendingByPID[q], now)
    {
      if q != pid {
        TickListTimely(e, s, list, now, s.buffer.pendingByPID[q]);
      }
    }
  }

  lemma {:induction false} TickPidsTimely(e: Env, s: State, order: seq<int>, now: Time)
    requires WF(s)
    ensures VisitedTimely(e, TickPids(e, s, order, now), now, order)
    ensures TickPids(e, s, order, now).buffer.pendingByPID.Keys <= s.buffer.pendingByPID.Keys
    ensures TickPids(e, s, order, now).watermark == s.watermark
    decreases |order|
  {
    if order != [] {
      var init, pid := order[..|order| - 1], order[|order| - 1];
      assert order == init + [pid];
      TickPidsTimely(e, s, init, now);
      TickPidTimely(e, TickPids(e, s, init, now), init, pid, now);
      TickPidsSnoc(e, s, init, pid, now);
    }
  }

  /** After every tick, each denial still buffered has waited less than ten times the buffer window,
    and less than the window itself once process events have passed its time. */
  lemma NothingWaitsTooLong(e: Env, steps: seq<Step>, p: nat)
    requires Feasible(e, steps) && steps != [] && steps[|steps| - 1].TickAt?
    requires p < |After(e, steps).buffer.pendings| && After(e, steps).buffer.pendings[p].fate == Buffered
    ensures !Overdue(e, After(e, steps).watermark, After(e, steps).buffer.pendings[p], steps[|steps| - 1].now)
  {
    var s := After(e, steps[..|steps| - 1]);
    var s' := After(e, steps);
    var now := steps[|steps| - 1].now;
    var order := steps[|steps| - 1].order;
    InvHolds(e, steps);
    TickPidsTimely(e, s, order, now);
    assert BI.Waiting(s'.buffer, s'.buffer.pendingByPID, p);
    var pid := s'.buffer.pendings[p].d.pid;
    assert pid in s.buffer.pendingByPID.Keys;
    assert NoneOverdue(e, s'.watermark, s'.buffer.pendings, s'.buffer.pendingByPID[pid], now);
  }
}
