/** The correlator's invariant, kept by every operation in any order of map iteration. */
module Invariant {
  import opened Events
  import opened Tables
  import opened Model
  import opened Handlers
  import GI = GraphInvariants
  import opened IndexInvariants
  import RI = RoutingInvariants
  import BI = BufferInvariants

  ghost predicate AdoptedKinds(c: Caches, runs: seq<Run>) {
    forall k | k in c.adopted :: c.adopted[k] < |runs| && runs[c.adopted[k]].kind == Adopted
  }

  ghost predicate Core(s: State) {
    && WF(s)
    && GI.GraphInv(s.graph)
    && IndexInv(s.graph.arena, s.index)
    && RI.RoutesInv(s.graph, s.index, s.routes)
    && AdoptedKinds(s.caches, s.graph.runs)
  }

  ghost predicate Inv(s: State) {
    Core(s) && BI.BufferInv(s.buffer, s.buffer.pendingByPID)
  }

  lemma InitialInv()
    ensures Inv(INITIAL)
  {
  }

  // ---------------------------------------------------------------------------------------------
  // Process events

  lemma RegisterCore(s: State, img: Image)
    requires Core(s) && FreshImage(img, |s.graph.arena|)
    requires !img.noToken ==> img.proc.token !in s.index.images
    ensures Core(Register(s, img))
  {
    GI.RegisterKeeps(s.graph, img);
    IndexedKeeps(s.graph.arena, s.index, img);
    RI.RegisterKeeps(s.graph, s.index, s.routes, img);
  }

  lemma SeeBothCore(s: State, ev: Event)
    requires Core(s)
    ensures Core(SeeBoth(s, ev)) && SeeBoth(s, ev).buffer == s.buffer
  {
    if ev.process.token !in s.index.images {
      RegisterCore(s, Untracked(ev.process));
    }
    var s1 := ImageFor(s, ev.process);
    RI.MarkSeenKeeps(s1.graph, s1.index, s1.routes, ev.process);
    RI.MarkSeenKeeps(s1.graph, s1.index, MarkSeen(s1.routes, ev.process), ev.target);
  }

  /** Runs never disappear or change kind. */
  predicate RunsGrow(a: seq<Run>, b: seq<Run>) {
    |a| <= |b| && forall r | 0 <= r < |a| :: b[r].kind == a[r].kind
  }

  /** Replacing the graph by one where images keep identity and rows keeps the rest. */
  lemma GraphStepCore(s: State, g: Graph)
    requires Core(s) && GI.GraphInv(g) && RI.RowsStay(s.graph, g) && RunsGrow(s.graph.runs, g.runs)
    ensures Core(s.(graph := g))
  {
    IndexFrame(s.graph.arena, g.arena, s.index);
    RI.RowsStayKeeps(s.graph, g, s.index, s.routes);
  }

  lemma JoinCore(s: State, i: nat, r: nat)
    requires Core(s) && i < |s.graph.arena| && r < |s.graph.runs|
    ensures Core(s.(graph := Join(s.graph, i, r)))
  {
    GI.JoinKeeps(s.graph, i, r);
    RI.JoinStays(s.graph, i, r);
    GraphStepCore(s, Join(s.graph, i, r));
  }

  lemma HandleForkCore(s: State, ev: Event)
    requires Core(s)
    ensures Core(HandleFork(s, ev)) && HandleFork(s, ev).buffer == s.buffer
  {
    SeeBothCore(s, ev);
    var s1 := SeeBoth(s, ev);
    if ev.target.token !in s1.index.images {
      var parent := s1.index.images[ev.process.token];
      var img := s1.graph.arena[parent];
      var s2 := Register(s1, Forked(ev, parent, img.args, img.cwd));
      RegisterCore(s1, Forked(ev, parent, img.args, img.cwd));
      if img.run.Some? {
        JoinCore(s2, |s1.graph.arena|, img.run.value);
      }
    }
  }

  lemma FinishExecGrows(e: Env, g: Graph, ev: Event, i: nat, actor: nat)
    requires GraphOk(g) && i < |g.arena| && actor < |g.arena|
    ensures RunsGrow(g.runs, FinishExec(e, g, ev, i, actor).runs)
  {
    var g1 := JoinExeced(e, g, ev, i, g.arena[actor].run);
    assert RunsGrow(g.runs, g1.runs);
  }

  lemma HandleExecCore(e: Env, s: State, ev: Event)
    requires Core(s)
    ensures Core(HandleExec(e, s, ev)) && HandleExec(e, s, ev).buffer == s.buffer
  {
    SeeBothCore(s, ev);
    var s1 := SeeBoth(s, ev);
    if ev.target.token !in s1.index.images {
      var actor := s1.index.images[ev.process.token];
      var i := |s1.graph.arena|;
      var img := Execed(ev, actor, s1.graph.arena[actor].parent);
      var s2 := Register(s1, img);
      RegisterCore(s1, img);
      GI.FinishExecKeeps(e, s2.graph, ev, i, actor);
      RI.FinishExecStays(e, s2.graph, ev, i, actor);
      FinishExecGrows(e, s2.graph, ev, i, actor);
      GraphStepCore(s2, FinishExec(e, s2.graph, ev, i, actor));
    }
  }

  lemma EndImageGrows(g: Graph, i: nat, end: End)
    requires GraphOk(g) && i < |g.arena|
    ensures RunsGrow(g.runs, EndImage(g, i, end).runs)
  {
  }

  lemma HandleExitCore(s: State, ev: Event)
    requires Core(s)
    ensures Core(HandleExit(s, ev)) && HandleExit(s, ev).buffer == s.buffer
  {
    if ev.process.token in s.index.images {
      var i := s.index.images[ev.process.token];
      var end := End(ev.time, ByExit, Some(ev.exitStatus));
      GI.EndImageKeeps(s.graph, i, end);
      RI.EndImageStays(s.graph, i, end);
      EndImageGrows(s.graph, i, end);
      GraphStepCore(s, EndImage(s.graph, i, end));
    }
  }

  lemma HandleESInv(e: Env, s: State, ev: Event)
    requires Inv(s)
    ensures Inv(HandleES(e, s, ev)) && HandleES(e, s, ev).buffer == s.buffer
  {
    var s1 := s.(watermark := Later(s.watermark, ev.time));
    match ev.kind {
      case Fork => HandleForkCore(s1, ev);
      case Exec => HandleExecCore(e, s1, ev);
      case Exit => HandleExitCore(s1, ev);
      case OtherKind =>
    }
  }

  // ---------------------------------------------------------------------------------------------
  // Denials

  /** An image a denial of this pid may be attributed to. */
  predicate Attributee(s: State, p: nat, i: nat) {
    && p < |s.buffer.pendings|
    && Listed(s.graph.arena, s.index, i)
    && s.graph.arena[i].run.Some?
    && s.graph.arena[i].proc.token.pid == s.buffer.pendings[p].d.pid
  }

  lemma AttributeKeepsGraph(e: Env, s: State, p: nat, i: nat)
    requires Core(s) && Attributee(s, p, i)
    ensures GI.GraphInv(Attribute(e, s, p, i).graph)
  {
    var q := s.buffer.pendings[p];
    var img := s.graph.arena[i];
    var known := KeyOf(q.d) in s.routes.lastStored && s.routes.lastStored[KeyOf(q.d)].img == i;
    GI.WithDenialKeeps(s.graph, i, NewDenialRow(q.d, q.count, img.run.value, img.rowID), known);
    GI.AttachSessionKeeps(e, StoreDenial(s, p, i).graph, img.run.value, q.d);
  }

  lemma AttributeFrame(e: Env, s: State, p: nat, i: nat)
    requires WF(s) && p < |s.buffer.pendings| && i < |s.graph.arena| && s.graph.arena[i].run.Some?
    ensures SameIdentities(s.graph.arena, Attribute(e, s, p, i).graph.arena)
    ensures RunsGrow(s.graph.runs, Attribute(e, s, p, i).graph.runs)
    ensures Attribute(e, s, p, i).index == s.index && Attribute(e, s, p, i).caches == s.caches
  {
  }

  lemma AttributeCore(e: Env, s: State, p: nat, i: nat)
    requires Core(s) && Attributee(s, p, i)
    ensures Core(Attribute(e, s, p, i))
  {
    AttributeKeepsGraph(e, s, p, i);
    AttributeFrame(e, s, p, i);
    IndexFrame(s.graph.arena, Attribute(e, s, p, i).graph.arena, s.index);
    RI.AttributeKeeps(e, s, p, i);
  }

  lemma AdoptCore(s: State, m: Match, d: Denial)
    requires Core(s)
    ensures Core(Adopt(s, m, d)) && Adopt(s, m, d).index == s.index && Adopt(s, m, d).routes == s.routes
  {
    if AdoptionKey(m) !in s.caches.adopted {
      var sid := FindSession(s.graph.db.sessions, m.kind, m.key);
      GI.WithSessionsKeeps(s.graph, m, d.time);
      GI.AddRunKeeps(WithSessions(s.graph, m, d.time), AdoptedRow(m, d, sid), true);
      RI.RowsStayKeeps(s.graph, Adopt(s, m, d).graph, s.index, s.routes);
    }
  }

  lemma StubIsListed(s: State, pid: int)
    requires Core(s)
    ensures Core(Register(s, Stub(pid)))
    ensures Listed(Register(s, Stub(pid)).graph.arena, Register(s, Stub(pid)).index, |s.graph.arena|)
  {
    RegisterCore(s, Stub(pid));
    InsertMembers(s.graph.arena + [Stub(pid)], ListOf(s.index.byPID, pid), |s.graph.arena|);
  }

  predicate ListedFor(s: State, p: nat, i: nat) {
    && p < |s.buffer.pendings|
    && Listed(s.graph.arena, s.index, i)
    && s.graph.arena[i].proc.token.pid == s.buffer.pendings[p].d.pid
  }

  /** Joining an image to a run makes it an attributee. */
  lemma JoinAndAttributeCore(e: Env, s: State, p: nat, i: nat, r: nat)
    requires Core(s) && ListedFor(s, p, i) && r < |s.graph.runs|
    ensures
      var s1 := s.(graph := Join(s.graph, i, r));
      WF(s1) && s1.graph.arena[i].run.Some? && Core(Attribute(e, s1, p, i))
  {
    JoinCore(s, i, r);
    AttributeCore(e, s.(graph := Join(s.graph, i, r)), p, i);
  }

  lemma AdoptDenialCore(e: Env, s: State, p: nat, i: Option<nat>, m: Match)
    requires Core(s) && p < |s.buffer.pendings| && (i.Some? ==> ListedFor(s, p, i.value))
    ensures Core(AdoptDenial(e, s, p, i, m))
  {
    var d := s.buffer.pendings[p].d;
    AdoptCore(s, m, d);
    var s1 := Adopt(s, m, d);
    var r := s1.caches.adopted[AdoptionKey(m)];
    if i.Some? {
      JoinAndAttributeCore(e, s1, p, i.value, r);
    } else {
      StubIsListed(s1, d.pid);
      JoinAndAttributeCore(e, Register(s1, Stub(d.pid)), p, |s1.graph.arena|, r);
    }
  }

  lemma JoinCandidateGrows(g: Graph, i: nat)
    requires GraphOk(g) && i < |g.arena| && Eligible(g.arena, i)
    ensures RunsGrow(g.runs, JoinCandidate(g, i).runs)
  {
    var root := g.arena[RootOf(g.arena, i)];
    var g1 := if root.run.Some? then g else AddRun(g, SandboxInitRow(root), false);
    var r := if root.run.Some? then root.run.value else |g.runs|;
    JoinAllGrows(g1, PathTo(g.arena, i), r);
    MaybeEndRunGrows(JoinAll(g1, PathTo(g.arena, i), r), r);
  }

  lemma MaybeEndRunGrows(g: Graph, r: nat)
    requires GraphOk(g) && r < |g.runs|
    ensures RunsGrow(g.runs, MaybeEndRun(g, r).runs)
  {
  }

  lemma {:induction false} JoinAllGrows(g: Graph, path: seq<nat>, r: nat)
    requires GraphOk(g) && InRange(path, |g.arena|) && r < |g.runs|
    ensures RunsGrow(g.runs, JoinAll(g, path, r).runs)
    decreases |path|
  {
    if path != [] {
      JoinAllGrows(g, path[..|path| - 1], r);
    }
  }

  lemma JoinCandidateCore(s: State, i: nat)
    requires Core(s) && i < |s.graph.arena| && Eligible(s.graph.arena, i)
    ensures Core(s.(graph := JoinCandidate(s.graph, i)))
  {
    GI.JoinCandidateKeeps(s.graph, i);
    RI.JoinCandidateStays(s.graph, i);
    JoinCandidateGrows(s.graph, i);
    GraphStepCore(s, JoinCandidate(s.graph, i));
  }

  lemma StoreOrphanCore(s: State, p: nat)
    requires Core(s) && p < |s.buffer.pendings|
    ensures Core(StoreOrphan(s, p))
  {
    RI.StoreOrphanKeeps(s, p);
    if s.buffer.pendings[p].d.pid in s.routes.seen {
      GI.OrphanRowKeeps(s.graph, OrphanRowOf(s.buffer.pendings[p], s.routes.seen[s.buffer.pendings[p].d.pid]));
    }
  }

  lemma FinalizeCandidateCore(e: Env, s: State, p: nat, i: nat)
    requires Core(s) && ListedFor(s, p, i) && e.entitlements.Some?
    ensures Core(FinalizeCandidate(e, s, p, i))
  {
    var s1 := s.(caches := CheckedEntitlement(e, s, i));
    if IsCandidate(e, s, i) {
      JoinCandidateCore(s1, i);
      JoinCandidateFrame(s.graph, i);
      AttributeCore(e, s1.(graph := JoinCandidate(s.graph, i)), p, i);
    } else {
      StoreOrphanCore(s1, p);
    }
  }

  lemma FinalizeCore(e: Env, s0: State, p: nat, classify: bool)
    requires Core(s0) && p < |s0.buffer.pendings|
    ensures Core(Finalize(e, s0, p, classify))
  {
    var s := s0.(buffer := ForgetPending(s0.buffer, p));
    var d := s.buffer.pendings[p].d;
    var i := Resolve(s, d.pid, d.time);
    var m := Detect(e, d.message);
    ResolveFinds(s, d.pid, d.time);
    if i.Some? && s.graph.arena[i.value].run.Some? {
      AttributeCore(e, s, p, i.value);
    } else if m.Some? && classify {
      AdoptDenialCore(e, s, p, i, m.value);
    } else if i.Some? && classify && e.entitlements.Some? {
      FinalizeCandidateCore(e, s, p, i.value);
    } else {
      StoreOrphanCore(s, p);
    }
  }

  lemma HandleDenialInv(e: Env, s: State, d: Denial, now: Time)
    requires Inv(s)
    ensures Inv(HandleDenial(e, s, d, now))
  {
    match RouteOf(s, d) {
      case ToPending(p) =>
        BI.AddPendingCountKeeps(s.buffer, s.buffer.pendingByPID, p, d.duplicate);
      case ToDenialRow(id) =>
        GI.CountsKeep(s.graph, id, d.duplicate);
        RI.CountsKeep(s.graph, s.index, s.routes, id, d.duplicate);
      case ToOrphanRow(id) =>
        GI.CountsKeep(s.graph, id, d.duplicate);
        RI.CountsKeep(s.graph, s.index, s.routes, id, d.duplicate);
      case NoRow =>
        TakeDenialInv(e, s, d, now);
    }
  }

  lemma TakeDenialInv(e: Env, s: State, d: Denial, now: Time)
    requires Inv(s)
    ensures Inv(TakeDenial(e, s, d, now))
  {
    var p := |s.buffer.pendings|;
    var s1 := s.(buffer := NewPending(s.buffer, d, now));
    var i := Attributable(s, d);
    if i.Some? {
      ResolveFinds(s, d.pid, d.time);
      AttributeCore(e, s1, p, i.value);
      BI.AttributeDecides(e, s1, p, i.value);
      BI.StoredAtOnceKeeps(s.buffer, s.buffer.pendingByPID, d, now, Stored(|s.graph.db.denials|));
    } else {
      BI.NewPendingKeeps(s.buffer, s.buffer.pendingByPID, d, now);
    }
  }

  // ---------------------------------------------------------------------------------------------
  // Ticks

  lemma TickOneKeeps(e: Env, s: State, p: nat, now: Time, lists: map<int, seq<nat>>, pid: int, pre: seq<nat>, post: seq<nat>)
    requires Core(s) && p < |s.buffer.pendings|
    requires BI.BufferInv(s.buffer, lists[pid := pre + [p] + post])
    ensures Core(TickOne(e, s, p, now))
    ensures BI.BufferInv(TickOne(e, s, p, now).buffer,
      lists[pid := (if Judge(e, s, p, now).Keep? then pre + [p] else pre) + post])
  {
    match Judge(e, s, p, now) {
      case FinalizeFully =>
        FinalizeCore(e, s, p, true);
        BI.FinalizeDecides(e, s, p, true);
        BI.SettleKeeps(s.buffer, lists, pid, pre, p, post, Finalize(e, s, p, true).buffer.pendings[p].fate);
      case FinalizeLagging =>
        FinalizeCore(e, s, p, false);
        BI.FinalizeDecides(e, s, p, false);
        BI.SettleKeeps(s.buffer, lists, pid, pre, p, post, Finalize(e, s, p, false).buffer.pendings[p].fate);
      case AttributeTo(i) =>
        var d := s.buffer.pendings[p].d;
        ResolveFinds(s, d.pid, d.time);
        AttributeCore(e, s, p, i);
        BI.AttributeDecides(e, s, p, i);
        BI.SettleKeeps(s.buffer, lists, pid, pre, p, post, Stored(|s.graph.db.denials|));
      case Keep =>
    }
  }

  /** A list visit goes through the visit of all but its last denial. */
  lemma TickListSnoc(e: Env, s: State, list: seq<nat>, p: nat, now: Time)
    requires WF(s) && InRange(list, |s.buffer.pendings|) && p < |s.buffer.pendings| && InRange(list + [p], |s.buffer.pendings|)
    ensures
      var (s1, kept) := TickList(e, s, list, now);
      TickList(e, s, list + [p], now)
        == (TickOne(e, s1, p, now), if Judge(e, s1, p, now).Keep? then kept + [p] else kept)
  {
    assert (list + [p])[..|list|] == list;
  }

  lemma SplitLast(list: seq<nat>, rest: seq<nat>)
    requires list != []
    ensures
      var init, p := list[..|list| - 1], list[|list| - 1];
      init + [p] == list && init + ([p] + rest) == list + rest
  {
  }

  /** The buffer while a list is compacted: what was kept so far, then the unvisited rest. */
  lemma {:induction false} TickListKeeps(e: Env, s: State, list: seq<nat>, rest: seq<nat>, now: Time, lists: map<int, seq<nat>>, pid: int)
    requires Core(s) && InRange(list, |s.buffer.pendings|)
    requires BI.BufferInv(s.buffer, lists[pid := list + rest])
    ensures Core(TickList(e, s, list, now).0)
    ensures BI.BufferInv(TickList(e, s, list, now).0.buffer, lists[pid := TickList(e, s, list, now).1 + rest])
    decreases |list|
  {
    if list != [] {
      var init, p := list[..|list| - 1], list[|list| - 1];
      SplitLast(list, rest);
      TickListKeeps(e, s, init, [p] + rest, now, lists, pid);
      TickNextKeeps(e, TickList(e, s, init, now).0, TickList(e, s, init, now).1, p, rest, now, lists, pid);
      TickListSnoc(e, s, init, p, now);
    }
  }

  lemma TickNextKeeps(e: Env, s: State, kept: seq<nat>, p: nat, rest: seq<nat>, now: Time, lists: map<int, seq<nat>>, pid: int)
    requires Core(s) && p < |s.buffer.pendings| && BI.BufferInv(s.buffer, lists[pid := kept + ([p] + rest)])
    ensures Core(TickOne(e, s, p, now))
    ensures BI.BufferInv(TickOne(e, s, p, now).buffer,
      lists[pid := (if Judge(e, s, p, now).Keep? then kept + [p] else kept) + rest])
  {
    assert kept + ([p] + rest) == kept + [p] + rest;
    TickOneKeeps(e, s, p, now, lists, pid, kept, rest);
  }

  /** Ticking one pid's list, then storing what is left of it. */
  lemma TickPidKeeps(e: Env, s: State, pid: int, now: Time)
    requires Inv(s)
    ensures
      var (s2, kept) := TickList(e, s, ListOf(s.buffer.pendingByPID, pid), now);
      Inv(s2.(buffer := SetPending(s2.buffer, pid, kept)))
  {
    var list := ListOf(s.buffer.pendingByPID, pid);
    var lists := s.buffer.pendingByPID;
    assert list + [] == list;
    WithEmptyList(s.buffer, pid);
    TickListKeeps(e, s, list, [], now, lists, pid);
    var (s2, kept) := TickList(e, s, list, now);
    assert kept + [] == kept;
    BI.SetPendingKeeps(s2.buffer, lists[pid := kept], pid, kept);
  }

  lemma WithEmptyList(b: Buffer, pid: int)
    requires BI.BufferInv(b, b.pendingByPID)
    ensures BI.BufferInv(b, b.pendingByPID[pid := ListOf(b.pendingByPID, pid)])
  {
    var lists := b.pendingByPID[pid := ListOf(b.pendingByPID, pid)];
    forall q | q in lists ensures BI.WaitingList(b, q, lists[q]) {
      if q in b.pendingByPID { assert BI.WaitingList(b, q, b.pendingByPID[q]); }
    }
    forall p | 0 <= p < |b.pendings| && b.pendings[p].fate == Buffered ensures BI.Waiting(b, lists, p) {
      assert BI.Waiting(b, b.pendingByPID, p);
    }
  }

  lemma {:induction false} TickPidsInv(e: Env, s: State, order: seq<int>, now: Time)
    requires Inv(s)
    ensures Inv(TickPids(e, s, order, now))
    decreases |order|
  {
    if order != [] {
      TickPidsInv(e, s, order[..|order| - 1], now);
      TickPidKeeps(e, TickPids(e, s, order[..|order| - 1], now), order[|order| - 1], now);
    }
  }

  lemma EvictInv(e: Env, s: State, now: Time)
    requires Inv(s)
    ensures Inv(Evict(e, s, now))
  {
    var cutoff := now - Retention(e);
    EvictKeeps(s.graph.arena, s.index, cutoff);
    RI.EvictKeeps(s.graph, s.index, s.routes, cutoff);
  }

  lemma TickInv(e: Env, s: State, now: Time, order: seq<int>)
    requires Inv(s)
    ensures Inv(Tick(e, s, now, order))
  {
    TickPidsInv(e, s, order, now);
    EvictInv(e, TickPids(e, s, order, now), now);
  }
}
