/** A process row names the row of its image's parent, and of its predecessor, exactly if that image joined
  the same run before. Only in adopted runs can it join after: in all others nobody joins a run after an
  image that it forked or exec'd. */
module Links {
  import opened Events
  import opened Tables
  import opened Model
  import opened Handlers
  import opened IndexInvariants
  import opened Invariant
  import opened Behaviour
  import opened Traversal
  import opened Membership
  import opened Chains
  import Decisions
  import GI = GraphInvariants

  /** The row id q of a member of run r stands for the edge: it is set if the edge leads to a member, and
    what the edge leads to cannot join the run any more. */
  predicate EdgeLinked(g: Graph, r: nat, edge: Option<nat>, q: Option<nat>)
    requires edge.Some? ==> edge.value < |g.arena|
  {
    edge.Some? ==>
      && (g.arena[edge.value].run == Some(r) ==> q == Some(g.arena[edge.value].rowID))
      && (g.arena[edge.value].run.None? ==> !OnChainOf(g, edge.value, r))
  }

  predicate LinkedAt(g: Graph, i: nat)
    requires GraphOk(g) && i < |g.arena|
  {
    var img := g.arena[i];
    img.run.Some? && g.runs[img.run.value].kind != Adopted ==>
      && EdgeLinked(g, img.run.value, img.parent, g.db.processes[img.rowID].parent)
      && EdgeLinked(g, img.run.value, img.prev, g.db.processes[img.rowID].execPrev)
  }

  /** The edge leads to an image that joined the run of image i before image i did. Row ids increase. */
  predicate JoinedBefore(arena: seq<Image>, i: nat, edge: Option<nat>)
    requires i < |arena| && (edge.Some? ==> edge.value < |arena|)
  {
    && edge.Some? && arena[i].run.Some?
    && arena[edge.value].run == arena[i].run && arena[edge.value].rowID < arena[i].rowID
  }

  /** In runs of every kind: a row names what joined before. */
  predicate NamesEarlier(g: Graph, i: nat)
    requires GraphOk(g) && i < |g.arena|
  {
    var img := g.arena[i];
    img.run.Some? ==>
      && (JoinedBefore(g.arena, i, img.parent) ==> g.db.processes[img.rowID].parent == Some(g.arena[img.parent.value].rowID))
      && (JoinedBefore(g.arena, i, img.prev) ==> g.db.processes[img.rowID].execPrev == Some(g.arena[img.prev.value].rowID))
  }

  predicate OnlyExecsHavePrev(arena: seq<Image>) {
    forall i | 0 <= i < |arena| :: arena[i].prev.Some? ==> arena[i].execSeen
  }

  predicate Linked(g: Graph)
    requires GraphOk(g)
  {
    OnlyExecsHavePrev(g.arena) && forall i | 0 <= i < |g.arena| :: LinkedAt(g, i) && NamesEarlier(g, i)
  }

  // ---------------------------------------------------------------------------------------------
  // What does not touch membership

  predicate SameRow(a: ProcessRow, b: ProcessRow) {
    b.parent == a.parent && b.execPrev == a.execPrev
  }

  /** Images may end and rows be completed, but nobody joins a run. */
  predicate NobodyJoins(g: Graph, g': Graph) {
    && SameIdentities(g.arena, g'.arena)
    && (forall i | 0 <= i < |g.arena| :: g'.arena[i].run == g.arena[i].run && g'.arena[i].rowID == g.arena[i].rowID)
    && |g.runs| <= |g'.runs| && (forall r | 0 <= r < |g.runs| :: g'.runs[r].kind == g.runs[r].kind)
    && |g.db.processes| == |g'.db.processes|
    && (forall p | 0 <= p < |g.db.processes| :: SameRow(g.db.processes[p], g'.db.processes[p]))
  }

  lemma ChainBack(g: Graph, g': Graph, i: nat, r: nat)
    requires EdgesOk(g.arena) && EdgesOk(g'.arena) && SameIdentities(g.arena, g'.arena) && OnChainOf(g', i, r)
    ensures Eligible(g.arena, i) && RootOf(g.arena, i) == RootOf(g'.arena, i)
  {
    EligibleSame(g.arena, g'.arena, i);
  }

  lemma EdgeStays(g: Graph, g': Graph, r: nat, edge: Option<nat>, q: Option<nat>)
    requires GraphOk(g) && GraphOk(g') && NobodyJoins(g, g') && (edge.Some? ==> edge.value < |g.arena|)
    requires EdgeLinked(g, r, edge, q)
    ensures EdgeLinked(g', r, edge, q)
  {
    if edge.Some? && OnChainOf(g', edge.value, r) {
      ChainBack(g, g', edge.value, r);
    }
  }

  lemma NobodyJoinsKeeps(g: Graph, g': Graph)
    requires GraphOk(g) && GraphOk(g') && NobodyJoins(g, g') && Linked(g)
    ensures Linked(g')
  {
    assert OnlyExecsHavePrev(g'.arena) by {
      forall i | 0 <= i < |g'.arena| ensures g'.arena[i].prev.Some? ==> g'.arena[i].execSeen {
        assert SameImage(g.arena[i], g'.arena[i]);
      }
    }
    forall i | 0 <= i < |g'.arena| ensures NamesEarlier(g', i) {
      NobodyJoinsNames(g, g', i);
    }
    forall i | 0 <= i < |g'.arena| ensures LinkedAt(g', i) {
      var img := g.arena[i];
      assert SameImage(img, g'.arena[i]) && LinkedAt(g, i);
      if img.run.Some? && g.runs[img.run.value].kind != Adopted {
        assert SameRow(g.db.processes[img.rowID], g'.db.processes[img.rowID]);
        EdgeStays(g, g', img.run.value, img.parent, g.db.processes[img.rowID].parent);
        EdgeStays(g, g', img.run.value, img.prev, g.db.processes[img.rowID].execPrev);
      }
    }
  }

  lemma NobodyJoinsNames(g: Graph, g': Graph, i: nat)
    requires GraphOk(g) && GraphOk(g') && NobodyJoins(g, g') && i < |g.arena| && NamesEarlier(g, i)
    ensures NamesEarlier(g', i)
  {
    assert SameImage(g.arena[i], g'.arena[i]);
    if g.arena[i].run.Some? {
      assert SameRow(g.db.processes[g.arena[i].rowID], g'.db.processes[g.arena[i].rowID]);
    }
  }

  lemma EndMemberLinks(g: Graph, i: nat, end: End)
    requires GraphOk(g) && Linked(g) && i < |g.arena| && g.arena[i].end.None?
    ensures Linked(EndMember(g, i, end))
  {
    NobodyJoinsKeeps(g, EndMember(g, i, end));
  }

  lemma MaybeEndRunLinks(g: Graph, r: nat)
    requires GraphOk(g) && Linked(g) && r < |g.runs|
    ensures Linked(MaybeEndRun(g, r))
  {
    NobodyJoinsKeeps(g, MaybeEndRun(g, r));
  }

  lemma EndImageLinks(g: Graph, i: nat, end: End)
    requires GraphOk(g) && Linked(g) && i < |g.arena|
    ensures Linked(EndImage(g, i, end))
  {
    if g.arena[i].end.None? {
      EndMemberLinks(g, i, end);
      if g.arena[i].run.Some? {
        MaybeEndRunLinks(EndMember(g, i, end), g.arena[i].run.value);
      }
    }
  }

  lemma RegisterLinks(g: Graph, img: Image)
    requires GraphOk(g) && Linked(g) && FreshImage(img, |g.arena|) && (img.prev.Some? ==> img.execSeen)
    ensures
      var g' := g.(arena := g.arena + [img]);
      GraphOk(g') && Linked(g')
  {
    var g' := g.(arena := g.arena + [img]);
    assert Grows(g.arena, g'.arena);
    forall i | 0 <= i < |g'.arena| ensures LinkedAt(g', i) && NamesEarlier(g', i) {
      if i < |g.arena| {
        assert LinkedAt(g, i) && NamesEarlier(g, i);
        NewcomerEdge(g, g', i, g.arena[i].parent);
        NewcomerEdge(g, g', i, g.arena[i].prev);
      }
    }
  }

  lemma NewcomerEdge(g: Graph, g': Graph, i: nat, edge: Option<nat>)
    requires GraphOk(g) && EdgesOk(g'.arena) && |g.arena| <= |g'.arena| && i < |g.arena|
    requires forall k | 0 <= k < |g.arena| :: g'.arena[k] == g.arena[k]
    requires edge.Some? ==> edge.value < i
    ensures edge.Some? ==> forall r: nat :: OnChainOf(g', edge.value, r) <==> OnChainOf(g, edge.value, r)
  {
    if edge.Some? {
      assert Grows(g.arena, g'.arena);
      EligibleFrame(g.arena, g'.arena, edge.value);
    }
  }

  // ---------------------------------------------------------------------------------------------
  // Joining

  predicate NobodyIn(arena: seq<Image>, r: nat) {
    forall i | 0 <= i < |arena| :: arena[i].run != Some(r)
  }

  /** The edge leads to a member of some run, or to an image that cannot join run r. */
  predicate Settled(g: Graph, r: nat, edge: Option<nat>)
    requires edge.Some? ==> edge.value < |g.arena|
  {
    edge.Some? && g.arena[edge.value].run.None? ==> !OnChainOf(g, edge.value, r)
  }

  /** Image j joins before anything it forked or exec'd: it is the last on its chain so far, or the
    first image of the run, or the newest image of all. */
  predicate InTime(g: Graph, j: nat, r: nat) {
    && j < |g.arena|
    && ((OnChainOf(g, j, r) && !g.arena[j].execSeen) || NobodyIn(g.arena, r) || j == |g.arena| - 1)
  }

  /** The chains of other members stay as they are when j joins. */
  lemma JoinedChain(g: Graph, j: nat, r: nat, i: nat, edge: nat)
    requires GraphOk(g) && j < |g.arena| && r < |g.runs| && g.arena[j].run.None?
    requires i < |g.arena| && edge < i && i != j && g.arena[i].run.Some? && g.arena[edge].run.None?
    requires g.runs[r].kind == Adopted || InTime(g, j, r)
    requires g.runs[g.arena[i].run.value].kind != Adopted && OnChainOf(Join(g, j, r), edge, g.arena[i].run.value)
    ensures OnChainOf(g, edge, g.arena[i].run.value)
  {
    var g' := Join(g, j, r);
    JoinGrows(g, j, r);
    EligibleFrame(g.arena, g'.arena, edge);
  }

  lemma JoinedEdge(g: Graph, j: nat, r: nat, i: nat, edge: Option<nat>, q: Option<nat>)
    requires GraphOk(g) && j < |g.arena| && r < |g.runs| && g.arena[j].run.None?
    requires i < |g.arena| && i != j && g.arena[i].run.Some? && g.runs[g.arena[i].run.value].kind != Adopted
    requires g.runs[r].kind == Adopted || InTime(g, j, r)
    requires (edge.Some? ==> edge.value < i) && EdgeLinked(g, g.arena[i].run.value, edge, q)
    ensures EdgeLinked(Join(g, j, r), g.arena[i].run.value, edge, q)
  {
    if edge.Some? && edge.value != j && g.arena[edge.value].run.None? {
      if OnChainOf(Join(g, j, r), edge.value, g.arena[i].run.value) {
        JoinedChain(g, j, r, i, edge.value);
      }
    }
  }

  /** The row of the image that joins names the rows of its parent and predecessor. */
  lemma JoiningEdge(g: Graph, j: nat, r: nat, edge: Option<nat>)
    requires GraphOk(g) && j < |g.arena| && r < |g.runs| && g.arena[j].run.None?
    requires (edge.Some? ==> edge.value < j) && Settled(g, r, edge)
    ensures EdgeLinked(Join(g, j, r), r, edge, RowOfMember(g.arena, edge, r))
  {
    var g' := Join(g, j, r);
    if edge.Some? && OnChainOf(g', edge.value, r) {
      JoinGrows(g, j, r);
      EligibleFrame(g.arena, g'.arena, edge.value);
    }
  }

  lemma JoinLinks(g: Graph, j: nat, r: nat)
    requires GraphOk(g) && Linked(g) && j < |g.arena| && r < |g.runs|
    requires g.arena[j].run.None? && g.runs[r].kind != Adopted ==>
      InTime(g, j, r) && Settled(g, r, g.arena[j].parent) && Settled(g, r, g.arena[j].prev)
    ensures Linked(Join(g, j, r))
  {
    var g' := Join(g, j, r);
    if g.arena[j].run.None? {
      forall i | 0 <= i < |g'.arena| ensures NamesEarlier(g', i) {
        JoinNames(g, j, r, i);
      }
      forall i | 0 <= i < |g'.arena| ensures LinkedAt(g', i) {
        if i == j {
          if g.runs[r].kind != Adopted {
            JoiningEdge(g, j, r, g.arena[j].parent);
            JoiningEdge(g, j, r, g.arena[j].prev);
          }
        } else {
          JoinLinksOther(g, j, r, i);
        }
      }
    }
  }

  /** The image that joins gets the largest row id, and its row names what was in the run. */
  lemma JoinNames(g: Graph, j: nat, r: nat, i: nat)
    requires GraphOk(g) && j < |g.arena| && r < |g.runs| && g.arena[j].run.None? && i < |g.arena| && NamesEarlier(g, i)
    ensures NamesEarlier(Join(g, j, r), i)
  {
  }

  lemma JoinLinksOther(g: Graph, j: nat, r: nat, i: nat)
    requires GraphOk(g) && Linked(g) && j < |g.arena| && r < |g.runs| && g.arena[j].run.None? && i < |g.arena| && i != j
    requires g.runs[r].kind == Adopted || InTime(g, j, r)
    ensures LinkedAt(Join(g, j, r), i)
  {
    var img := g.arena[i];
    assert LinkedAt(g, i);
    if img.run.Some? && g.runs[img.run.value].kind != Adopted {
      JoinedEdge(g, j, r, i, img.parent, g.db.processes[img.rowID].parent);
      JoinedEdge(g, j, r, i, img.prev, g.db.processes[img.rowID].execPrev);
    }
  }

  // ---------------------------------------------------------------------------------------------
  // Process events

  lemma SeeBothLinks(s: State, ev: Event)
    requires WF(s) && Linked(s.graph)
    ensures Linked(SeeBoth(s, ev).graph)
  {
    if ev.process.token !in s.index.images {
      RegisterLinks(s.graph, Untracked(ev.process));
    }
  }

  lemma ForkLinks(s: State, ev: Event)
    requires WF(s) && Linked(s.graph)
    ensures Linked(HandleFork(s, ev).graph)
  {
    var s1 := SeeBoth(s, ev);
    SeeBothLinks(s, ev);
    if ev.target.token !in s1.index.images {
      var parent := s1.index.images[ev.process.token];
      var img := s1.graph.arena[parent];
      var child := Forked(ev, parent, img.args, img.cwd);
      RegisterLinks(s1.graph, child);
      if img.run.Some? {
        JoinLinks(Register(s1, child).graph, |s1.graph.arena|, img.run.value);
      }
    }
  }

  lemma StartRunLinks(e: Env, g: Graph, ev: Event, parent: Option<nat>)
    requires GraphOk(g) && Linked(g)
    ensures Linked(StartSandboxExecRun(e, g, ev, parent))
  {
    NobodyJoinsKeeps(g, StartSandboxExecRun(e, g, ev, parent));
  }

  lemma JoinExecedLinks(e: Env, g: Graph, ev: Event, n: nat, actor: nat)
    requires GraphOk(g) && Linked(g) && actor < n == |g.arena| - 1
    requires g.arena[n].run.None? && g.arena[n].prev == Some(actor) && g.arena[n].parent == g.arena[actor].parent
    ensures Linked(JoinExeced(e, g, ev, n, g.arena[actor].run))
  {
    var run := g.arena[actor].run;
    if ev.target.path == SANDBOX_EXEC_PATH {
      StartRunLinks(e, g, ev, run);
      FirstLinks(StartSandboxExecRun(e, g, ev, run), n, |g.runs|);
    } else if run.Some? {
      assert LinkedAt(g, actor);
      JoinLinks(g, n, run.value);
    }
  }

  /** The first image of a run is linked to nobody. */
  lemma FirstLinks(g: Graph, j: nat, r: nat)
    requires GraphOk(g) && Linked(g) && j < |g.arena| && r < |g.runs| && NobodyIn(g.arena, r)
    ensures Linked(Join(g, j, r))
  {
    JoinLinks(g, j, r);
  }

  lemma ExecLinks(e: Env, s: State, ev: Event)
    requires WF(s) && Linked(s.graph)
    ensures Linked(HandleExec(e, s, ev).graph)
  {
    var s1 := SeeBoth(s, ev);
    SeeBothLinks(s, ev);
    if ev.target.token !in s1.index.images {
      var actor := s1.index.images[ev.process.token];
      var img := Execed(ev, actor, s1.graph.arena[actor].parent);
      RegisterLinks(s1.graph, img);
      assert Register(s1, img).graph.arena[actor] == s1.graph.arena[actor];
      FinishExecLinks(e, Register(s1, img).graph, ev, |s1.graph.arena|, actor);
    }
  }

  lemma FinishExecLinks(e: Env, g: Graph, ev: Event, n: nat, actor: nat)
    requires GraphOk(g) && Linked(g) && actor < n == |g.arena| - 1
    requires g.arena[n].run.None? && g.arena[n].prev == Some(actor) && g.arena[n].parent == g.arena[actor].parent
    ensures Linked(FinishExec(e, g, ev, n, actor))
  {
    JoinExecedLinks(e, g, ev, n, actor);
    EndImageLinks(JoinExeced(e, g, ev, n, g.arena[actor].run), actor, End(ev.time, ByExec, None));
  }

  lemma EventLinks(e: Env, s: State, ev: Event)
    requires WF(s) && Linked(s.graph)
    ensures Linked(HandleES(e, s, ev).graph)
  {
    var s1 := s.(watermark := Later(s.watermark, ev.time));
    match ev.kind {
      case Fork => ForkLinks(s1, ev);
      case Exec => ExecLinks(e, s1, ev);
      case Exit =>
        if ev.process.token in s.index.images {
          EndImageLinks(s.graph, s.index.images[ev.process.token], End(ev.time, ByExit, Some(ev.exitStatus)));
        }
      case OtherKind =>
    }
  }

  // ---------------------------------------------------------------------------------------------
  // Denials and ticks

  lemma AttributeLinks(e: Env, s: State, p: nat, i: nat)
    requires WF(s) && p < |s.buffer.pendings| && i < |s.graph.arena| && s.graph.arena[i].run.Some? && Linked(s.graph)
    ensures Linked(Attribute(e, s, p, i).graph)
  {
    NobodyJoinsKeeps(s.graph, Attribute(e, s, p, i).graph);
  }

  lemma AdoptLinks(s: State, m: Match, d: Denial)
    requires WF(s) && Linked(s.graph) && AdoptedKinds(s.caches, s.graph.runs)
    ensures Linked(Adopt(s, m, d).graph)
    ensures Adopt(s, m, d).graph.runs[Adopt(s, m, d).caches.adopted[AdoptionKey(m)]].kind == Adopted
  {
    NobodyJoinsKeeps(s.graph, Adopt(s, m, d).graph);
  }

  lemma AdoptDenialLinks(e: Env, s: State, p: nat, i: Option<nat>, m: Match)
    requires WF(s) && Linked(s.graph) && AdoptedKinds(s.caches, s.graph.runs)
    requires p < |s.buffer.pendings| && (i.Some? ==> i.value < |s.graph.arena|)
    ensures Linked(AdoptDenial(e, s, p, i, m).graph)
  {
    var d := s.buffer.pendings[p].d;
    var s1 := Adopt(s, m, d);
    var r := s1.caches.adopted[AdoptionKey(m)];
    AdoptLinks(s, m, d);
    var k := if i.Some? then i.value else |s1.graph.arena|;
    var s2 := if i.Some? then s1 else Register(s1, Stub(d.pid));
    if i.None? {
      RegisterLinks(s1.graph, Stub(d.pid));
    }
    JoinLinks(s2.graph, k, r);
    AttributeLinks(e, s2.(graph := Join(s2.graph, k, r)), p, k);
  }

  /** The next image of a fork chain finds its parent in a run already. */
  lemma NextInTime(g: Graph, g1: Graph, i: nat, r: nat, m: nat)
    requires GraphOk(g) && GraphOk(g1) && OnlyExecsHavePrev(g1.arena) && Grows(g.arena, g1.arena)
    requires i < |g.arena| && Eligible(g.arena, i) && 0 < m < |PathTo(g.arena, i)|
    requires g1.arena[RootOf(g.arena, i)].run == Some(r) && g1.arena[PathTo(g.arena, i)[m - 1]].run.Some?
    ensures
      var j := PathTo(g.arena, i)[m];
      InTime(g1, j, r) && Settled(g1, r, g1.arena[j].parent) && Settled(g1, r, g1.arena[j].prev)
  {
    var j := PathTo(g.arena, i)[m];
    PathMember(g.arena, i, m);
    EligibleFrame(g.arena, g1.arena, j);
    assert GrowsAt(g.arena[j], g1.arena[j]);
  }

  lemma {:induction false} JoinPathLinks(g: Graph, i: nat, r: nat, m: nat)
    requires GraphOk(g) && Linked(g) && i < |g.arena| && Eligible(g.arena, i) && r < |g.runs| && m <= |PathTo(g.arena, i)|
    requires g.arena[RootOf(g.arena, i)].run == Some(r) || NobodyIn(g.arena, r)
    requires g.arena[RootOf(g.arena, i)].run.None? || g.arena[RootOf(g.arena, i)].run == Some(r)
    ensures Linked(JoinAll(g, PathTo(g.arena, i)[..m], r))
    decreases m
  {
    if m > 0 {
      var path := PathTo(g.arena, i);
      var g1 := JoinAll(g, path[..m - 1], r);
      assert path[..m][..m - 1] == path[..m - 1];
      JoinPathLinks(g, i, r, m - 1);
      if m == 1 {
        assert path[..0] == [];
        if g.arena[path[0]].run.None? {
          FirstLinks(g, path[0], r);
        }
      } else {
        JoinNextLinks(g, i, r, m - 1);
      }
    }
  }

  lemma JoinNextLinks(g: Graph, i: nat, r: nat, m: nat)
    requires GraphOk(g) && i < |g.arena| && Eligible(g.arena, i) && r < |g.runs| && 0 < m < |PathTo(g.arena, i)|
    requires g.arena[RootOf(g.arena, i)].run.None? || g.arena[RootOf(g.arena, i)].run == Some(r)
    requires Linked(JoinAll(g, PathTo(g.arena, i)[..m], r))
    ensures Linked(Join(JoinAll(g, PathTo(g.arena, i)[..m], r), PathTo(g.arena, i)[m], r))
  {
    var path := PathTo(g.arena, i);
    var g1 := JoinAll(g, path[..m], r);
    JoinAllOnlyJoins(g, path[..m], r);
    PathJoined(g, i, r, m);
    NextInTime(g, g1, i, r, m);
    JoinLinks(g1, path[m], r);
  }

  lemma PathJoined(g: Graph, i: nat, r: nat, m: nat)
    requires GraphOk(g) && i < |g.arena| && Eligible(g.arena, i) && r < |g.runs| && 0 < m <= |PathTo(g.arena, i)|
    requires g.arena[RootOf(g.arena, i)].run.None? || g.arena[RootOf(g.arena, i)].run == Some(r)
    ensures
      var path := PathTo(g.arena, i);
      var g1 := JoinAll(g, path[..m], r);
      |g1.arena| == |g.arena| && g1.arena[RootOf(g.arena, i)].run == Some(r) && g1.arena[path[m - 1]].run.Some?
  {
    var path := PathTo(g.arena, i);
    Decisions.JoinAllRuns(g, path[..m], r);
    assert path[..m][0] == path[0] && path[..m][m - 1] == path[m - 1];
    assert path[0] in path[..m] && path[m - 1] in path[..m];
  }

  lemma JoinCandidateLinks(g: Graph, i: nat)
    requires GraphOk(g) && Linked(g) && i < |g.arena| && Eligible(g.arena, i)
    ensures Linked(JoinCandidate(g, i))
  {
    var root := g.arena[RootOf(g.arena, i)];
    var path := PathTo(g.arena, i);
    var g1 := if root.run.Some? then g else AddRun(g, SandboxInitRow(root), false);
    var r := if root.run.Some? then root.run.value else |g.runs|;
    if root.run.None? {
      NobodyJoinsKeeps(g, g1);
    }
    JoinPathLinks(g1, i, r, |path|);
    assert path[..|path|] == path;
    MaybeEndRunLinks(JoinAll(g1, path, r), r);
  }

  lemma CandidateLinks(e: Env, s: State, p: nat, i: nat)
    requires WF(s) && Linked(s.graph) && p < |s.buffer.pendings| && i < |s.graph.arena| && e.entitlements.Some?
    ensures Linked(FinalizeCandidate(e, s, p, i).graph)
  {
    if IsCandidate(e, s, i) {
      JoinCandidateLinks(s.graph, i);
      AttributeLinks(e, s.(caches := CheckedEntitlement(e, s, i), graph := JoinCandidate(s.graph, i)), p, i);
    } else {
      NobodyJoinsKeeps(s.graph, FinalizeCandidate(e, s, p, i).graph);
    }
  }

  lemma FinalizeLinks(e: Env, s0: State, p: nat, classify: bool)
    requires Core(s0) && Linked(s0.graph) && p < |s0.buffer.pendings|
    ensures Linked(Finalize(e, s0, p, classify).graph)
  {
    var s := s0.(buffer := ForgetPending(s0.buffer, p));
    var d := s.buffer.pendings[p].d;
    var i := Resolve(s, d.pid, d.time);
    var m := Detect(e, d.message);
    if i.Some? && s.graph.arena[i.value].run.Some? {
      AttributeLinks(e, s, p, i.value);
    } else if m.Some? && classify {
      AdoptDenialLinks(e, s, p, i, m.value);
    } else if i.Some? && classify && e.entitlements.Some? {
      CandidateLinks(e, s, p, i.value);
    } else {
      NobodyJoinsKeeps(s.graph, StoreOrphan(s, p).graph);
    }
  }

  lemma TickOneLinks(e: Env, s: State, p: nat, now: Time)
    requires Core(s) && Linked(s.graph) && p < |s.buffer.pendings|
    ensures Linked(TickOne(e, s, p, now).graph)
  {
    match Judge(e, s, p, now) {
      case FinalizeFully => FinalizeLinks(e, s, p, true);
      case FinalizeLagging => FinalizeLinks(e, s, p, false);
      case AttributeTo(i) => AttributeLinks(e, s, p, i);
      case Keep =>
    }
  }

  lemma TickLinks(e: Env, s: State, now: Time, order: seq<int>)
    requires Inv(s) && Linked(s.graph)
    ensures Linked(Tick(e, s, now, order).graph)
  {
    var Q := (t: Time, x: Index, pendings: seq<Pending>, g: Graph) => GraphOk(g) && Linked(g);
    forall s1: State, p: nat | Core(s1) && Undecided(s1, p) && Holds(Q, s1) ensures Holds(Q, TickOne(e, s1, p, now)) {
      TickOneLinks(e, s1, p, now);
    }
    TickStable(e, s, order, now, Q);
  }

  lemma HandleDenialLinks(e: Env, s: State, d: Denial, now: Time)
    requires WF(s) && Linked(s.graph)
    ensures Linked(HandleDenial(e, s, d, now).graph)
  {
    var i := Attributable(s, d);
    if RouteOf(s, d).NoRow? && i.Some? {
      AttributeLinks(e, s.(buffer := NewPending(s.buffer, d, now)), |s.buffer.pendings|, i.value);
    } else {
      NobodyJoinsKeeps(s.graph, HandleDenial(e, s, d, now).graph);
    }
  }

  // ---------------------------------------------------------------------------------------------
  // Whole runs

  lemma StepLinks(e: Env, s: State, step: Step)
    requires Inv(s) && Linked(s.graph)
    ensures Linked(Apply(e, s, step).graph)
  {
    match step {
      case ProcessEvent(ev) => EventLinks(e, s, ev);
      case DenialLine(d, now) => HandleDenialLinks(e, s, d, now);
      case TickAt(now, order) => TickLinks(e, s, now, order);
    }
  }

  lemma {:induction false} LinksHold(e: Env, steps: seq<Step>)
    requires Feasible(e, steps)
    ensures Linked(After(e, steps).graph)
    decreases |steps|
  {
    if steps != [] {
      var init := steps[..|steps| - 1];
      LinksHold(e, init);
      InvHolds(e, init);
      StepLinks(e, After(e, init), steps[|steps| - 1]);
    }
  }

  /** The row that a process row names for this edge of its image. */
  function EarlierRowOf(arena: seq<Image>, i: nat, edge: Option<nat>): Option<nat>
    requires i < |arena| && (edge.Some? ==> edge.value < |arena|)
  {
    if JoinedBefore(arena, i, edge) then Some(arena[edge.value].rowID) else None
  }

  /** In every state of every run, for a member of a run of any kind: the row names the row of its image's
    parent, and of its predecessor, exactly if that image joined the run before it. */
  lemma RowLinksAreExact(e: Env, steps: seq<Step>, i: nat)
    requires Feasible(e, steps) && i < |After(e, steps).graph.arena| && After(e, steps).graph.arena[i].run.Some?
    ensures
      var g := After(e, steps).graph;
      var img, row := g.arena[i], g.db.processes[g.arena[i].rowID];
      && (img.parent.Some? ==> img.parent.value < |g.arena|) && (img.prev.Some? ==> img.prev.value < |g.arena|)
      && row.parent == EarlierRowOf(g.arena, i, img.parent)
      && row.execPrev == EarlierRowOf(g.arena, i, img.prev)
  {
    var g := After(e, steps).graph;
    InvHolds(e, steps);
    LinksHold(e, steps);
    ExactLinks(g, i);
  }

  lemma ExactLinks(g: Graph, i: nat)
    requires GI.GraphInv(g) && Linked(g) && i < |g.arena| && g.arena[i].run.Some?
    ensures
      var img, row := g.arena[i], g.db.processes[g.arena[i].rowID];
      row.parent == EarlierRowOf(g.arena, i, img.parent) && row.execPrev == EarlierRowOf(g.arena, i, img.prev)
  {
    var p := g.arena[i].rowID;
    assert NamesEarlier(g, i);
    assert GI.EdgeRow(g.arena, i, g.arena[i].parent, g.db.processes[p].parent);
    assert GI.EdgeRow(g.arena, i, g.arena[i].prev, g.db.processes[p].execPrev);
    assert GI.EarlierRow(g.db.processes, p, g.db.processes[p].parent) && GI.EarlierRow(g.db.processes, p, g.db.processes[p].execPrev);
  }

  /** In a run that was not adopted an image's parent and predecessor never join after it: the row names
    the row of its image's parent, and of its predecessor, exactly if that image is in the run. */
  lemma RowLinksAreComplete(e: Env, steps: seq<Step>, i: nat)
    requires Feasible(e, steps) && i < |After(e, steps).graph.arena|
    requires
      var g := After(e, steps).graph;
      g.arena[i].run.Some? && g.runs[g.arena[i].run.value].kind != Adopted
    ensures
      var g := After(e, steps).graph;
      var img, row := g.arena[i], g.db.processes[g.arena[i].rowID];
      && (img.parent.Some? ==> img.parent.value < |g.arena|) && (img.prev.Some? ==> img.prev.value < |g.arena|)
      && row.parent == RowOfMember(g.arena, img.parent, img.run.value)
      && row.execPrev == RowOfMember(g.arena, img.prev, img.run.value)
  {
    var g := After(e, steps).graph;
    InvHolds(e, steps);
    LinksHold(e, steps);
    assert LinkedAt(g, i);
    assert GI.EdgeRow(g.arena, i, g.arena[i].parent, g.db.processes[g.arena[i].rowID].parent);
    assert GI.EdgeRow(g.arena, i, g.arena[i].prev, g.db.processes[g.arena[i].rowID].execPrev);
  }
}
