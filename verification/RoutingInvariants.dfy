/** Where repeat reports may be counted: the invariants of lastStored, lastOrphan and orphanKeys. */
module RoutingInvariants {
  import opened Events
  import opened Tables
  import opened Model
  import opened Handlers
  import opened IndexInvariants

  /** A remembered denial row: its key, its image still tracked, and released with the image. */
  predicate StoredRoute(g: Graph, x: Index, k: DenialKey, sd: StoredDenial) {
    && sd.id < |g.db.denials|
    && DenialRowKey(g.db.denials[sd.id]) == k
    && Listed(g.arena, x, sd.img)
    && g.arena[sd.img].proc.token.pid == k.pid
    && g.arena[sd.img].run.Some?
    && g.db.denials[sd.id].process == g.arena[sd.img].rowID
    && k in g.arena[sd.img].denialKeys
  }

  ghost predicate StoredRoutes(g: Graph, x: Index, lastStored: map<DenialKey, StoredDenial>) {
    forall k | k in lastStored :: StoredRoute(g, x, k, lastStored[k])
  }

  /** A remembered orphan row: its key, and the pidversion its pid still has. */
  predicate OrphanRoute(orphans: seq<OrphanRow>, seen: map<int, SeenInfo>, k: DenialKey, id: nat) {
    && id < |orphans|
    && OrphanRowKey(orphans[id]) == k
    && k.pid in seen
    && orphans[id].lastPidversion == Some(seen[k.pid].pidversion)
  }

  /** orphanKeys partitions the keys of lastOrphan by pid, without repeats. */
  ghost predicate PartitionedByPid(t: Routes) {
    && (forall k: DenialKey :: k in t.lastOrphan <==> k.pid in t.orphanKeys && k in t.orphanKeys[k.pid])
    && (forall pid | pid in t.orphanKeys :: Distinct(t.orphanKeys[pid]))
    && (forall pid, k | pid in t.orphanKeys && k in t.orphanKeys[pid] :: k.pid == pid)
  }

  ghost predicate OrphanRoutes(orphans: seq<OrphanRow>, t: Routes) {
    && (forall k | k in t.lastOrphan :: OrphanRoute(orphans, t.seen, k, t.lastOrphan[k]))
    && PartitionedByPid(t)
  }

  ghost predicate RoutesInv(g: Graph, x: Index, t: Routes) {
    StoredRoutes(g, x, t.lastStored) && OrphanRoutes(g.db.orphans, t)
  }

  // ---------------------------------------------------------------------------------------------

  /** A pid whose process changed loses all its orphan routes; other routes stay. */
  lemma MarkSeenKeeps(g: Graph, x: Index, t: Routes, p: Proc)
    requires RoutesInv(g, x, t)
    ensures RoutesInv(g, x, MarkSeen(t, p))
  {
    var t' := MarkSeen(t, p);
    forall k | k in t'.lastOrphan ensures OrphanRoute(g.db.orphans, t'.seen, k, t'.lastOrphan[k]) {
      assert OrphanRoute(g.db.orphans, t.seen, k, t.lastOrphan[k]);
    }
  }

  /** Operations on the graph keep the routes when images keep their identity and their row. */
  ghost predicate RowsStay(a: Graph, b: Graph) {
    && SameIdentities(a.arena, b.arena)
    && (forall i | 0 <= i < |a.arena| && a.arena[i].run.Some? ::
          b.arena[i].run.Some? && b.arena[i].rowID == a.arena[i].rowID && b.arena[i].denialKeys == a.arena[i].denialKeys)
    && b.db.denials == a.db.denials
    && b.db.orphans == a.db.orphans
  }

  lemma RowsStayKeeps(a: Graph, b: Graph, x: Index, t: Routes)
    requires RoutesInv(a, x, t) && RowsStay(a, b)
    ensures RoutesInv(b, x, t)
  {
    forall k | k in t.lastStored ensures StoredRoute(b, x, k, t.lastStored[k]) {
      assert StoredRoute(a, x, k, t.lastStored[k]);
    }
  }

  lemma JoinStays(g: Graph, i: nat, r: nat)
    requires GraphOk(g) && i < |g.arena| && r < |g.runs|
    ensures RowsStay(g, Join(g, i, r))
  {
  }

  lemma {:induction false} JoinAllStays(g: Graph, path: seq<nat>, r: nat)
    requires GraphOk(g) && InRange(path, |g.arena|) && r < |g.runs|
    ensures RowsStay(g, JoinAll(g, path, r))
    decreases |path|
  {
    if path != [] {
      JoinAllStays(g, path[..|path| - 1], r);
      JoinStays(JoinAll(g, path[..|path| - 1], r), path[|path| - 1], r);
    }
  }

  lemma JoinCandidateStays(g: Graph, i: nat)
    requires GraphOk(g) && i < |g.arena| && Eligible(g.arena, i)
    ensures RowsStay(g, JoinCandidate(g, i))
  {
    var root := g.arena[RootOf(g.arena, i)];
    var g1 := if root.run.Some? then g else AddRun(g, SandboxInitRow(root), false);
    var r := if root.run.Some? then root.run.value else |g.runs|;
    JoinAllStays(g1, PathTo(g.arena, i), r);
    assert JoinCandidate(g, i).arena == JoinAll(g1, PathTo(g.arena, i), r).arena;
  }

  lemma EndImageStays(g: Graph, i: nat, end: End)
    requires GraphOk(g) && i < |g.arena|
    ensures RowsStay(g, EndImage(g, i, end))
  {
    EndImageFrame(g, i, end);
  }

  lemma JoinExecedStays(e: Env, g: Graph, ev: Event, i: nat, actorRun: Option<nat>)
    requires GraphOk(g) && i < |g.arena| && (actorRun.Some? ==> actorRun.value < |g.runs|)
    ensures RowsStay(g, JoinExeced(e, g, ev, i, actorRun))
  {
    if ev.target.path == SANDBOX_EXEC_PATH {
      JoinStays(StartSandboxExecRun(e, g, ev, actorRun), i, |g.runs|);
    } else if actorRun.Some? {
      JoinStays(g, i, actorRun.value);
    }
  }

  lemma FinishExecStays(e: Env, g: Graph, ev: Event, i: nat, actor: nat)
    requires GraphOk(g) && i < |g.arena| && actor < |g.arena|
    ensures RowsStay(g, FinishExec(e, g, ev, i, actor))
  {
    JoinExecedStays(e, g, ev, i, g.arena[actor].run);
    EndImageStays(JoinExeced(e, g, ev, i, g.arena[actor].run), actor, End(ev.time, ByExec, None));
  }

  lemma RegisterKeeps(g: Graph, x: Index, t: Routes, img: Image)
    requires IndexOk(x, |g.arena|) && IndexInv(g.arena, x) && RoutesInv(g, x, t)
    requires !img.noToken ==> img.proc.token !in x.images
    ensures RoutesInv(g.(arena := g.arena + [img]), Indexed(x, g.arena + [img], |g.arena|), t)
  {
    var g' := g.(arena := g.arena + [img]);
    var x' := Indexed(x, g'.arena, |g.arena|);
    forall k | k in t.lastStored ensures StoredRoute(g', x', k, t.lastStored[k]) {
      assert StoredRoute(g, x, k, t.lastStored[k]);
      if k.pid == img.proc.token.pid {
        InsertMembers(g'.arena, x.byPID[k.pid], |g.arena|);
      }
    }
  }

  /** Storing a denial routes its key to the new row. */
  lemma StoreDenialKeeps(s: State, p: nat, i: nat)
    requires WF(s) && p < |s.buffer.pendings| && i < |s.graph.arena| && s.graph.arena[i].run.Some?
    requires Listed(s.graph.arena, s.index, i) && s.graph.arena[i].proc.token.pid == s.buffer.pendings[p].d.pid
    requires RoutesInv(s.graph, s.index, s.routes)
    ensures RoutesInv(StoreDenial(s, p, i).graph, s.index, StoreDenial(s, p, i).routes)
  {
    var s' := StoreDenial(s, p, i);
    var key := KeyOf(s.buffer.pendings[p].d);
    forall k | k in s'.routes.lastStored ensures StoredRoute(s'.graph, s.index, k, s'.routes.lastStored[k]) {
      if k in s.routes.lastStored {
        assert StoredRoute(s.graph, s.index, k, s.routes.lastStored[k]);
      }
      if k == key {
        NewRoute(s, p, i);
      } else {
        OldRoute(s, p, i, k);
      }
    }
  }

  lemma OldRoute(s: State, p: nat, i: nat, k: DenialKey)
    requires WF(s) && p < |s.buffer.pendings| && i < |s.graph.arena| && s.graph.arena[i].run.Some?
    requires k in s.routes.lastStored && StoredRoute(s.graph, s.index, k, s.routes.lastStored[k])
    ensures StoredRoute(StoreDenial(s, p, i).graph, s.index, k, s.routes.lastStored[k])
  {
  }

  lemma NewRoute(s: State, p: nat, i: nat)
    requires WF(s) && p < |s.buffer.pendings| && i < |s.graph.arena| && s.graph.arena[i].run.Some?
    requires Listed(s.graph.arena, s.index, i) && s.graph.arena[i].proc.token.pid == s.buffer.pendings[p].d.pid
    requires
      var key := KeyOf(s.buffer.pendings[p].d);
      key in s.routes.lastStored ==> StoredRoute(s.graph, s.index, key, s.routes.lastStored[key])
    ensures StoredRoute(StoreDenial(s, p, i).graph, s.index, KeyOf(s.buffer.pendings[p].d), StoredDenial(|s.graph.db.denials|, i))
  {
  }

  lemma AttachSessionStays(e: Env, g: Graph, r: nat, d: Denial)
    requires GraphOk(g) && r < |g.runs|
    ensures RowsStay(g, AttachSession(e, g, r, d))
  {
  }

  lemma AttributeKeeps(e: Env, s: State, p: nat, i: nat)
    requires WF(s) && p < |s.buffer.pendings| && i < |s.graph.arena| && s.graph.arena[i].run.Some?
    requires Listed(s.graph.arena, s.index, i) && s.graph.arena[i].proc.token.pid == s.buffer.pendings[p].d.pid
    requires RoutesInv(s.graph, s.index, s.routes)
    ensures RoutesInv(Attribute(e, s, p, i).graph, s.index, Attribute(e, s, p, i).routes)
  {
    var s1 := StoreDenial(s, p, i);
    StoreDenialKeeps(s, p, i);
    AttachSessionStays(e, s1.graph, s.graph.arena[i].run.value, s.buffer.pendings[p].d);
    RowsStayKeeps(s1.graph, Attribute(e, s, p, i).graph, s.index, s1.routes);
  }

  lemma RememberKeepsPartition(t: Routes, key: DenialKey, id: nat)
    requires PartitionedByPid(t)
    ensures PartitionedByPid(RememberOrphan(t, key, id))
  {
  }

  lemma StoreOrphanKeeps(s: State, p: nat)
    requires WF(s) && p < |s.buffer.pendings| && RoutesInv(s.graph, s.index, s.routes)
    ensures RoutesInv(StoreOrphan(s, p).graph, s.index, StoreOrphan(s, p).routes)
  {
    var s' := StoreOrphan(s, p);
    forall k | k in s.routes.lastStored ensures StoredRoute(s'.graph, s.index, k, s.routes.lastStored[k]) {
      assert StoredRoute(s.graph, s.index, k, s.routes.lastStored[k]);
    }
    var key := KeyOf(s.buffer.pendings[p].d);
    RememberKeepsPartition(s.routes, key, |s.graph.db.orphans|);
    forall k | k in s'.routes.lastOrphan
      ensures OrphanRoute(s'.graph.db.orphans, s'.routes.seen, k, s'.routes.lastOrphan[k])
    {
      if k in s.routes.lastOrphan {
        assert OrphanRoute(s.graph.db.orphans, s.routes.seen, k, s.routes.lastOrphan[k]);
      }
    }
  }

  lemma CountsKeep(g: Graph, x: Index, t: Routes, id: nat, n: int)
    requires GraphOk(g) && RoutesInv(g, x, t)
    ensures id < |g.db.denials| ==> RoutesInv(AddDenialCount(g, id, n), x, t)
    ensures id < |g.db.orphans| ==> RoutesInv(AddOrphanCount(g, id, n), x, t)
  {
    if id < |g.db.denials| {
      var g' := AddDenialCount(g, id, n);
      forall k | k in t.lastStored ensures StoredRoute(g', x, k, t.lastStored[k]) {
        assert StoredRoute(g, x, k, t.lastStored[k]);
      }
    }
    if id < |g.db.orphans| {
      var g' := AddOrphanCount(g, id, n);
      forall k | k in t.lastStored ensures StoredRoute(g', x, k, t.lastStored[k]) {
        assert StoredRoute(g, x, k, t.lastStored[k]);
      }
      forall k | k in t.lastOrphan ensures OrphanRoute(g'.db.orphans, t.seen, k, t.lastOrphan[k]) {
        assert OrphanRoute(g.db.orphans, t.seen, k, t.lastOrphan[k]);
      }
    }
  }

  /** Eviction forgets exactly the stored routes whose image it releases. */
  lemma EvictKeeps(g: Graph, x: Index, t: Routes, cutoff: Time)
    requires IndexOk(x, |g.arena|) && RoutesInv(g, x, t)
    requires forall k | k in t.lastStored :: t.lastStored[k].img < |g.arena|
    ensures RoutesInv(g, EvictIndex(g.arena, x, cutoff), EvictRoutes(g.arena, x, t, cutoff))
    ensures forall k | k in t.lastStored ::
      k in EvictRoutes(g.arena, x, t, cutoff).lastStored <==> Listed(g.arena, EvictIndex(g.arena, x, cutoff), t.lastStored[k].img)
  {
    var x' := EvictIndex(g.arena, x, cutoff);
    var t' := EvictRoutes(g.arena, x, t, cutoff);
    forall k | k in t.lastStored
      ensures k in t'.lastStored <==> Listed(g.arena, x', t.lastStored[k].img)
      ensures k in t'.lastStored ==> StoredRoute(g, x', k, t'.lastStored[k])
    {
      var sd := t.lastStored[k];
      assert StoredRoute(g, x, k, sd);
      RetainedMembers(g.arena, x.byPID[k.pid], cutoff);
    }
  }
}
