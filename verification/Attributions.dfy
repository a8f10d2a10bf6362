/** A stored denial belongs to the process that its pid was at its time: whoever a settled time resolves to
  gets the row, whenever the denial is decided. */
module Attributions {
  import opened Events
  import opened Tables
  import opened Model
  import opened Handlers
  import opened IndexInvariants
  import opened Invariant
  import opened Behaviour
  import opened Traversal
  import opened Timeline
  import opened Settled
  import opened Chains
  import BI = BufferInvariants

  /** Denial p is stored, in the run and under the process row of image i. */
  predicate StoredAt(pendings: seq<Pending>, g: Graph, p: nat, i: nat) {
    && p < |pendings| && pendings[p].fate.Stored? && pendings[p].fate.row < |g.db.denials|
    && i < |g.arena|
    && var row := g.db.denials[pendings[p].fate.row];
       g.arena[i].run == Some(row.run) && g.arena[i].rowID == row.process
  }

  /** Denial p, if it is stored, is stored with the image that it resolved to. */
  predicate StoredAsResolved(pendings: seq<Pending>, g: Graph, p: nat, i: Option<nat>) {
    p < |pendings| && pendings[p].fate.Stored? ==> i.Some? && StoredAt(pendings, g, p, i.value)
  }

  lemma AttributeStores(e: Env, s: State, p: nat, i: nat)
    requires WF(s) && p < |s.buffer.pendings| && i < |s.graph.arena| && s.graph.arena[i].run.Some?
    ensures StoredAt(Attribute(e, s, p, i).buffer.pendings, Attribute(e, s, p, i).graph, p, i)
  {
  }

  /** Adopting a denial of a pid without any image leaves a stub for the pid. */
  lemma StubStays(e: Env, s: State, p: nat, r: nat)
    requires Core(s) && p < |s.buffer.pendings| && r < |s.graph.runs|
    ensures
      var s1 := Register(s, Stub(s.buffer.pendings[p].d.pid));
      var s2 := s1.(graph := Join(s1.graph, |s.graph.arena|, r));
      && s2.graph.arena[|s.graph.arena|].run.Some?
      && !StubFree(Attribute(e, s2, p, |s.graph.arena|), s.buffer.pendings[p].d.pid)
  {
    var pid := s.buffer.pendings[p].d.pid;
    var n := |s.graph.arena|;
    var s1 := Register(s, Stub(pid));
    StubIsListed(s, pid);
    var s2 := s1.(graph := Join(s1.graph, n, r));
    JoinFrame(s1.graph, n, r);
    AttributeFrame(e, s2, p, n);
    ListedStub(Attribute(e, s2, p, n), pid, n);
  }

  lemma ListedStub(s: State, pid: int, n: nat)
    requires WF(s) && n < |s.graph.arena| && s.graph.arena[n].noToken && pid in s.index.byPID && n in s.index.byPID[pid]
    ensures !StubFree(s, pid)
  {
    var k :| 0 <= k < |s.index.byPID[pid]| && s.index.byPID[pid][k] == n;
    assert s.graph.arena[s.index.byPID[pid][k]].noToken;
  }

  lemma AdoptDenialStores(e: Env, s: State, p: nat, i: Option<nat>, m: Match)
    requires Core(s) && p < |s.buffer.pendings| && (i.Some? ==> i.value < |s.graph.arena|)
    requires StubFree(AdoptDenial(e, s, p, i, m), s.buffer.pendings[p].d.pid)
    ensures i.Some? && StoredAt(AdoptDenial(e, s, p, i, m).buffer.pendings, AdoptDenial(e, s, p, i, m).graph, p, i.value)
  {
    var s1 := Adopt(s, m, s.buffer.pendings[p].d);
    var r := s1.caches.adopted[AdoptionKey(m)];
    AdoptCore(s, m, s.buffer.pendings[p].d);
    if i.Some? {
      AttributeStores(e, s1.(graph := Join(s1.graph, i.value, r)), p, i.value);
    } else {
      StubStays(e, s1, p, r);
    }
  }

  lemma CandidateStores(e: Env, s: State, p: nat, i: nat)
    requires WF(s) && p < |s.buffer.pendings| && i < |s.graph.arena| && e.entitlements.Some?
    ensures StoredAsResolved(FinalizeCandidate(e, s, p, i).buffer.pendings, FinalizeCandidate(e, s, p, i).graph, p, Some(i))
  {
    if IsCandidate(e, s, i) {
      AttributeStores(e, s.(caches := CheckedEntitlement(e, s, i), graph := JoinCandidate(s.graph, i)), p, i);
    }
  }

  lemma FinalizeStores(e: Env, s0: State, p: nat, classify: bool)
    requires Core(s0) && p < |s0.buffer.pendings| && StubFree(Finalize(e, s0, p, classify), s0.buffer.pendings[p].d.pid)
    ensures
      var d := s0.buffer.pendings[p].d;
      var s' := Finalize(e, s0, p, classify);
      StoredAsResolved(s'.buffer.pendings, s'.graph, p, Resolve(s0, d.pid, d.time))
  {
    var s := s0.(buffer := ForgetPending(s0.buffer, p));
    var d := s.buffer.pendings[p].d;
    var i := Resolve(s, d.pid, d.time);
    var m := Detect(e, d.message);
    if i.Some? && s.graph.arena[i.value].run.Some? {
      AttributeStores(e, s, p, i.value);
    } else if m.Some? && classify {
      AdoptDenialStores(e, s, p, i, m.value);
    } else if i.Some? && classify && e.entitlements.Some? {
      CandidateStores(e, s, p, i.value);
    }
  }

  lemma TickOneStores(e: Env, s: State, p: nat, now: Time)
    requires Core(s) && Undecided(s, p) && StubFree(TickOne(e, s, p, now), s.buffer.pendings[p].d.pid)
    ensures
      var d := s.buffer.pendings[p].d;
      var s' := TickOne(e, s, p, now);
      StoredAsResolved(s'.buffer.pendings, s'.graph, p, Resolve(s, d.pid, d.time))
  {
    match Judge(e, s, p, now) {
      case FinalizeFully => FinalizeStores(e, s, p, true);
      case FinalizeLagging => FinalizeStores(e, s, p, false);
      case AttributeTo(i) => AttributeStores(e, s, p, i);
      case Keep =>
    }
  }

  // ---------------------------------------------------------------------------------------------
  // Whole ticks

  /** Deciding another denial leaves what is stored where it is. */
  lemma StoredStays(e: Env, s: State, q: nat, now: Time, p: nat, i: Option<nat>)
    requires Core(s) && Undecided(s, q) && p != q && StoredAsResolved(s.buffer.pendings, s.graph, p, i)
    ensures StoredAsResolved(TickOne(e, s, q, now).buffer.pendings, TickOne(e, s, q, now).graph, p, i)
  {
    var s' := TickOne(e, s, q, now);
    TickOneDecides(e, s, q, now);
    TickOneOnlyJoins(e, s, q, now);
    if p < |s.buffer.pendings| && s.buffer.pendings[p].fate.Stored? {
      assert GrowsAt(s.graph.arena[i.value], s'.graph.arena[i.value]);
    }
  }

  /** The state within a tick, for denial p: the pid's past is as it was, and if there is no stub for the
    pid, the denial is undecided or stored as it resolved before the tick. */
  ghost predicate Within(s: State, p: nat, t: Time, x: Index, pendings: seq<Pending>, g: Graph)
    requires WF(s) && p < |s.buffer.pendings|
  {
    var d := s.buffer.pendings[p].d;
    && IndexOk(x, |g.arena|)
    && p < |pendings| && pendings[p].d == d
    && t == s.watermark && QuietIn(s.graph.arena, ListOf(s.index.byPID, d.pid), g.arena, ListOf(x.byPID, d.pid))
    && (StubFreeIn(g.arena, ListOf(x.byPID, d.pid)) ==> StoredAsResolved(pendings, g, p, Resolve(s, d.pid, d.time)))
  }

  lemma TickOneWithin(e: Env, s: State, p: nat, s1: State, q: nat, now: Time)
    requires WF(s) && p < |s.buffer.pendings| && Core(s1) && Undecided(s1, q)
    requires Within(s, p, s1.watermark, s1.index, s1.buffer.pendings, s1.graph)
    ensures
      var s2 := TickOne(e, s1, q, now);
      Within(s, p, s2.watermark, s2.index, s2.buffer.pendings, s2.graph)
  {
    var s2 := TickOne(e, s1, q, now);
    var d := s.buffer.pendings[p].d;
    TickOneDecides(e, s1, q, now);
    TickOneQuiet(e, s1, q, now, d.pid);
    QuietTrans(s, s1, s2, d.pid);
    if StubFree(s2, d.pid) {
      QuietResolves(s1, s2, d.pid, d.time);
      QuietResolves(s, s1, d.pid, d.time);
      if p == q {
        TickOneStores(e, s1, q, now);
      } else {
        StoredStays(e, s1, q, now, p, Resolve(s, d.pid, d.time));
      }
    }
  }

  lemma TickWithin(e: Env, s: State, p: nat, now: Time, order: seq<int>)
    requires Inv(s) && Undecided(s, p)
    ensures
      var s1 := TickPids(e, s, order, now);
      Within(s, p, s1.watermark, s1.index, s1.buffer.pendings, s1.graph)
  {
    var Q := (t: Time, x: Index, pendings: seq<Pending>, g: Graph) => Within(s, p, t, x, pendings, g);
    forall s1: State, q: nat | Core(s1) && Undecided(s1, q) && Holds(Q, s1) ensures Holds(Q, TickOne(e, s1, q, now)) {
      TickOneWithin(e, s, p, s1, q, now);
    }
    TickStable(e, s, order, now, Q);
  }

  /** A tick that stores a denial of a pid without a stub stores it as it resolved before the tick. */
  lemma TickStores(e: Env, s: State, p: nat, now: Time, order: seq<int>)
    requires Inv(s) && Undecided(s, p) && StubsRun(s.graph.arena)
    requires StubFree(Tick(e, s, now, order), s.buffer.pendings[p].d.pid)
    ensures
      var d := s.buffer.pendings[p].d;
      var s' := Tick(e, s, now, order);
      StoredAsResolved(s'.buffer.pendings, s'.graph, p, Resolve(s, d.pid, d.time))
  {
    TickWithin(e, s, p, now, order);
    TickPidsStubs(e, s, order, now);
    EvictKeepsStubs(e, TickPids(e, s, order, now), now, s.buffer.pendings[p].d.pid);
  }

  /** Over whole runs in order: a denial that a tick stores, for a time that process events had passed
    after the first n steps and that stayed settled since, gets the run and the process row of the
    image that the time resolved to then. */
  lemma StoredWhereSettled(e: Env, steps: seq<Step>, n: nat, p: nat, now: Time, order: seq<int>)
    requires Feasible(e, steps) && OrderedRun(e, steps) && n < |steps| && steps[|steps| - 1] == TickAt(now, order)
    requires Undecided(After(e, steps[..|steps| - 1]), p)
    requires
      var d := After(e, steps[..|steps| - 1]).buffer.pendings[p].d;
      && CaughtUp(StateAt(e, steps, n), d.time) && StaysSettled(e, steps, n, d.pid, d.time)
      && StubFree(After(e, steps), d.pid)
    ensures
      var d := After(e, steps[..|steps| - 1]).buffer.pendings[p].d;
      var s := After(e, steps);
      StoredAsResolved(s.buffer.pendings, s.graph, p, Resolve(StateAt(e, steps, n), d.pid, d.time))
  {
    var init := steps[..|steps| - 1];
    var s := After(e, init);
    var d := s.buffer.pendings[p].d;
    InvHolds(e, init);
    StubsRunHolds(e, init);
    ImagesRunInTurn(e, init, d.pid);
    TickResolves(e, s, now, order, d.pid, d.time);
    AttributionIsStable(e, init, n, d.pid, d.time);
    TickStores(e, s, p, now, order);
  }

  /** The same for a denial that is stored on arrival, with what the time resolved to ever since. */
  lemma StoredOnArrival(e: Env, steps: seq<Step>, n: nat, d: Denial, now: Time)
    requires Feasible(e, steps) && OrderedRun(e, steps) && n < |steps| && steps[|steps| - 1] == DenialLine(d, now)
    requires CaughtUp(StateAt(e, steps, n), d.time) && StaysSettled(e, steps, n, d.pid, d.time)
    requires StubFree(After(e, steps), d.pid)
    ensures
      var p := |After(e, steps[..|steps| - 1]).buffer.pendings|;
      var s := After(e, steps);
      StoredAsResolved(s.buffer.pendings, s.graph, p, Resolve(StateAt(e, steps, n), d.pid, d.time))
  {
    var init := steps[..|steps| - 1];
    var s := After(e, init);
    HandleDenialQuiet(e, s, d, now, d.pid);
    QuietResolves(s, HandleDenial(e, s, d, now), d.pid, d.time);
    AttributionIsStable(e, init, n, d.pid, d.time);
    ArrivalStores(e, s, d, now);
  }

  lemma ArrivalStores(e: Env, s: State, d: Denial, now: Time)
    requires WF(s)
    ensures
      var s' := HandleDenial(e, s, d, now);
      StoredAsResolved(s'.buffer.pendings, s'.graph, |s.buffer.pendings|, Resolve(s, d.pid, d.time))
  {
    var i := Attributable(s, d);
    if RouteOf(s, d).NoRow? && i.Some? {
      AttributeStores(e, s.(buffer := NewPending(s.buffer, d, now)), |s.buffer.pendings|, i.value);
    }
  }
}
