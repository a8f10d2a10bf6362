/** A sandbox-exec run is the tree below its sandbox-exec image, along the recorded fork and exec
  edges, without the trees of nested sandbox-exec images. Parent pids play no role. */
module Membership {
  import opened Events
  import opened Tables
  import opened Model
  import opened Handlers
  import opened IndexInvariants
  import opened Invariant
  import opened Behaviour
  import opened Traversal
  import GI = GraphInvariants

  /** A sandbox-exec image that was seen to be exec'd. */
  predicate IsRoot(img: Image) {
    img.execSeen && img.proc.path == SANDBOX_EXEC_PATH
  }

  /** The edge that brought an image into being: exec'd from `prev`, or forked by `parent`. */
  function Origin(img: Image): Option<nat> {
    if img.execSeen then img.prev else img.parent
  }

  /** The nearest sandbox-exec image at or above image i. */
  function Nearest(arena: seq<Image>, i: nat): (a: Option<nat>)
    requires EdgesOk(arena) && i < |arena|
    ensures a.Some? ==> a.value <= i && IsRoot(arena[a.value])
    decreases i
  {
    if IsRoot(arena[i]) then Some(i)
    else if Origin(arena[i]).None? then None
    else Nearest(arena, Origin(arena[i]).value)
  }

  predicate InKind(g: Graph, i: nat, kind: RunKind)
    requires i < |g.arena|
  {
    g.arena[i].run.Some? && g.arena[i].run.value < |g.runs| && g.runs[g.arena[i].run.value].kind == kind
  }

  /** An image is in the run of its nearest sandbox-exec image, or in no sandbox-exec run. */
  predicate PlacedAt(g: Graph, i: nat, a: Option<nat>)
    requires i < |g.arena| && (a.Some? ==> a.value < |g.arena|)
  {
    if a.Some? then InKind(g, i, SandboxExec) && g.arena[i].run == g.arena[a.value].run
    else !InKind(g, i, SandboxExec)
  }

  predicate Placed(g: Graph)
    requires EdgesOk(g.arena)
  {
    forall i | 0 <= i < |g.arena| :: PlacedAt(g, i, Nearest(g.arena, i))
  }

  /** Sandbox-exec images and sandbox-exec runs correspond one to one. */
  predicate OwnRuns(g: Graph) {
    && (forall a, b | 0 <= a < b < |g.arena| && IsRoot(g.arena[a]) && IsRoot(g.arena[b]) :: g.arena[a].run != g.arena[b].run)
    && (forall r | 0 <= r < |g.runs| && g.runs[r].kind == SandboxExec :: Rooted(g.arena, r))
  }

  predicate Rooted(arena: seq<Image>, r: nat) {
    exists a | 0 <= a < |arena| :: IsRoot(arena[a]) && arena[a].run == Some(r)
  }

  /** A run's parent run is the run of the sandbox-exec image nearest to the image that exec'd it;
    outside any sandbox-exec run it is none, or a run of another kind. */
  predicate NestedAt(g: Graph, a: nat)
    requires EdgesOk(g.arena) && a < |g.arena|
  {
    && g.arena[a].prev.Some?
    && g.arena[a].run.Some? && g.arena[a].run.value < |g.db.runs|
    && var above := Nearest(g.arena, g.arena[a].prev.value);
       var parentRun := g.db.runs[g.arena[a].run.value].parentRun;
       if above.Some? then parentRun == g.arena[above.value].run
       else parentRun.Some? ==> parentRun.value < |g.runs| && g.runs[parentRun.value].kind != SandboxExec
  }

  predicate Nested(g: Graph)
    requires EdgesOk(g.arena)
  {
    forall a | 0 <= a < |g.arena| && IsRoot(g.arena[a]) :: NestedAt(g, a)
  }

  predicate MemberInv(g: Graph) {
    EdgesOk(g.arena) && Placed(g) && OwnRuns(g) && Nested(g)
  }

  // ---------------------------------------------------------------------------------------------
  // Nearest depends only on the identity of images and on images that exist already

  lemma {:induction false} NearestFrame(a: seq<Image>, b: seq<Image>, i: nat)
    requires EdgesOk(a) && EdgesOk(b) && |a| <= |b| && i < |a|
    requires forall k | 0 <= k < |a| :: SameImage(a[k], b[k])
    ensures Nearest(b, i) == Nearest(a, i)
    decreases i
  {
    assert SameImage(a[i], b[i]);
    if !IsRoot(a[i]) && Origin(a[i]).Some? {
      NearestFrame(a, b, Origin(a[i]).value);
    }
  }

  /** The graph after an operation that moves no image to or from a sandbox-exec run. */
  predicate Settles(g: Graph, g': Graph) {
    && EdgesOk(g.arena) && EdgesOk(g'.arena)
    && SameIdentities(g.arena, g'.arena)
    && |g.runs| == |g.db.runs| <= |g'.runs| == |g'.db.runs|
    && (forall i | 0 <= i < |g.arena| ::
          g'.arena[i].run == g.arena[i].run || (!InKind(g, i, SandboxExec) && !InKind(g', i, SandboxExec) && !IsRoot(g.arena[i])))
    && (forall r | 0 <= r < |g.runs| :: g'.runs[r].kind == g.runs[r].kind && g'.db.runs[r].parentRun == g.db.runs[r].parentRun)
    && (forall r | |g.runs| <= r < |g'.runs| :: g'.runs[r].kind != SandboxExec)
  }

  lemma RootHasRun(g: Graph, a: nat)
    requires MemberInv(g) && a < |g.arena| && IsRoot(g.arena[a])
    ensures InKind(g, a, SandboxExec)
  {
    assert PlacedAt(g, a, Nearest(g.arena, a));
  }

  lemma SettlesKeeps(g: Graph, g': Graph)
    requires MemberInv(g) && Settles(g, g')
    ensures MemberInv(g')
  {
    forall i | 0 <= i < |g'.arena| ensures PlacedAt(g', i, Nearest(g'.arena, i)) {
      NearestFrame(g.arena, g'.arena, i);
      assert PlacedAt(g, i, Nearest(g.arena, i));
      if Nearest(g.arena, i).Some? {
        RootHasRun(g, Nearest(g.arena, i).value);
      }
    }
    forall r | 0 <= r < |g'.runs| && g'.runs[r].kind == SandboxExec ensures Rooted(g'.arena, r) {
      assert Rooted(g.arena, r);
      var a :| 0 <= a < |g.arena| && IsRoot(g.arena[a]) && g.arena[a].run == Some(r);
      assert IsRoot(g'.arena[a]) && g'.arena[a].run == Some(r);
    }
    forall a | 0 <= a < |g'.arena| && IsRoot(g'.arena[a]) ensures NestedAt(g', a) {
      assert NestedAt(g, a);
      NearestFrame(g.arena, g'.arena, g.arena[a].prev.value);
      var above := Nearest(g.arena, g.arena[a].prev.value);
      if above.Some? {
        RootHasRun(g, above.value);
      }
    }
  }

  // ---------------------------------------------------------------------------------------------
  // Late joins never enter a sandbox-exec run

  lemma JoinSettles(g: Graph, i: nat, r: nat)
    requires GraphOk(g) && MemberInv(g) && i < |g.arena| && r < |g.runs|
    requires g.arena[i].run.Some? || g.runs[r].kind != SandboxExec
    ensures Settles(g, Join(g, i, r))
  {
    assert PlacedAt(g, i, Nearest(g.arena, i));
  }

  lemma {:induction false} JoinAllKeeps(g: Graph, path: seq<nat>, r: nat)
    requires GraphOk(g) && MemberInv(g) && InRange(path, |g.arena|) && r < |g.runs|
    requires g.runs[r].kind == SandboxExec ==> forall k | 0 <= k < |path| :: g.arena[path[k]].run.Some?
    ensures MemberInv(JoinAll(g, path, r))
    ensures JoinAll(g, path, r).runs[r].kind == g.runs[r].kind
    ensures forall i | 0 <= i < |g.arena| && g.arena[i].run.Some? :: JoinAll(g, path, r).arena[i].run == g.arena[i].run
    decreases |path|
  {
    if path != [] {
      var n := |path| - 1;
      JoinAllKeeps(g, path[..n], r);
      var g1 := JoinAll(g, path[..n], r);
      assert g.runs[r].kind == SandboxExec ==> g.arena[path[n]].run.Some?;
      JoinSettles(g1, path[n], r);
      SettlesKeeps(g1, Join(g1, path[n], r));
    }
  }

  /** The fork chain of a candidate has no sandbox-exec image between it and its root. */
  lemma {:induction false} PathNearest(arena: seq<Image>, i: nat, k: nat)
    requires EdgesOk(arena) && i < |arena| && Eligible(arena, i) && k < |PathTo(arena, i)|
    ensures Nearest(arena, PathTo(arena, i)[k]) == Nearest(arena, RootOf(arena, i))
    decreases i
  {
    if !arena[i].execSeen {
      var p := arena[i].parent.value;
      PathNearest(arena, p, if k < |PathTo(arena, p)| then k else |PathTo(arena, p)| - 1);
    }
  }

  /** If the root of a candidate is in a sandbox-exec run, so is the whole fork chain already. */
  lemma CandidatePathJoined(g: Graph, i: nat)
    requires GraphOk(g) && MemberInv(g) && i < |g.arena| && Eligible(g.arena, i)
    requires InKind(g, RootOf(g.arena, i), SandboxExec)
    ensures forall k | 0 <= k < |PathTo(g.arena, i)| :: g.arena[PathTo(g.arena, i)[k]].run.Some?
  {
    var path := PathTo(g.arena, i);
    var root := RootOf(g.arena, i);
    assert PlacedAt(g, root, Nearest(g.arena, root));
    forall k | 0 <= k < |path| ensures g.arena[path[k]].run.Some? {
      PathNearest(g.arena, i, k);
      assert PlacedAt(g, path[k], Nearest(g.arena, path[k]));
    }
  }

  lemma JoinPathKeeps(g: Graph, path: seq<nat>, r: nat)
    requires GraphOk(g) && MemberInv(g) && InRange(path, |g.arena|) && r < |g.runs|
    requires g.runs[r].kind == SandboxExec ==> forall k | 0 <= k < |path| :: g.arena[path[k]].run.Some?
    ensures MemberInv(MaybeEndRun(JoinAll(g, path, r), r))
  {
    JoinAllKeeps(g, path, r);
    var g1 := JoinAll(g, path, r);
    SettlesKeeps(g1, MaybeEndRun(g1, r));
  }

  lemma JoinCandidateKeeps(g: Graph, i: nat)
    requires GraphOk(g) && MemberInv(g) && i < |g.arena| && Eligible(g.arena, i)
    ensures MemberInv(JoinCandidate(g, i))
  {
    var root := g.arena[RootOf(g.arena, i)];
    if root.run.Some? {
      if InKind(g, RootOf(g.arena, i), SandboxExec) {
        CandidatePathJoined(g, i);
      }
      JoinPathKeeps(g, PathTo(g.arena, i), root.run.value);
    } else {
      var g1 := AddRun(g, SandboxInitRow(root), false);
      SettlesKeeps(g, g1);
      JoinPathKeeps(g1, PathTo(g.arena, i), |g.runs|);
    }
  }

  // ---------------------------------------------------------------------------------------------
  // Process events

  /** An image that predates the watch, or a stub: it has no recorded origin. */
  lemma RegisterUnrelatedKeeps(g: Graph, img: Image)
    requires GraphOk(g) && MemberInv(g) && FreshImage(img, |g.arena|) && !img.execSeen && img.parent.None?
    ensures MemberInv(g.(arena := g.arena + [img]))
  {
    AppendKeeps(g, g.(arena := g.arena + [img]));
  }

  /** Appending an image and runs for it: everything that was there stays as it was. */
  predicate Extends(g: Graph, g': Graph) {
    && GraphOk(g) && GraphOk(g')
    && |g'.arena| == |g.arena| + 1
    && g'.arena[..|g.arena|] == g.arena
    && |g.runs| <= |g'.runs| && (forall r | 0 <= r < |g.runs| ::
          g'.runs[r].kind == g.runs[r].kind && g'.db.runs[r].parentRun == g.db.runs[r].parentRun)
  }

  lemma ExtendsAt(g: Graph, g': Graph)
    requires Extends(g, g')
    ensures forall i | 0 <= i < |g.arena| :: g'.arena[i] == g.arena[i]
  {
    assert forall i | 0 <= i < |g.arena| :: g'.arena[i] == g'.arena[..|g.arena|][i];
  }

  lemma AppendPlaced(g: Graph, g': Graph)
    requires MemberInv(g) && Extends(g, g')
    ensures forall i | 0 <= i < |g.arena| ::
      g'.arena[i] == g.arena[i] && Nearest(g'.arena, i) == Nearest(g.arena, i) && PlacedAt(g', i, Nearest(g'.arena, i))
  {
    var n := |g.arena|;
    forall i | 0 <= i < n
      ensures g'.arena[i] == g.arena[i] && Nearest(g'.arena, i) == Nearest(g.arena, i) && PlacedAt(g', i, Nearest(g'.arena, i))
    {
      assert forall k | 0 <= k < n :: g'.arena[k] == g'.arena[..n][k] == g.arena[k];
      NearestFrame(g.arena, g'.arena, i);
      assert PlacedAt(g, i, Nearest(g.arena, i));
    }
  }

  lemma AppendKeeps(g: Graph, g': Graph)
    requires MemberInv(g) && Extends(g, g')
    requires PlacedAt(g', |g.arena|, Nearest(g'.arena, |g.arena|))
    requires IsRoot(g'.arena[|g.arena|]) ==>
      g'.arena[|g.arena|].run == Some(|g.runs|) && |g'.runs| == |g.runs| + 1 && NestedAt(g', |g.arena|)
    requires !IsRoot(g'.arena[|g.arena|]) ==> |g'.runs| == |g.runs|
    ensures MemberInv(g')
  {
    AppendOwnRuns(g, g');
    assert Placed(g') by {
      AppendPlaced(g, g');
    }
    assert Nested(g') by {
      forall a | 0 <= a < |g.arena| && IsRoot(g'.arena[a]) ensures NestedAt(g', a) {
        AppendNested(g, g', a);
      }
    }
  }

  lemma AppendOwnRuns(g: Graph, g': Graph)
    requires MemberInv(g) && Extends(g, g')
    requires IsRoot(g'.arena[|g.arena|]) ==> g'.arena[|g.arena|].run == Some(|g.runs|) && |g'.runs| == |g.runs| + 1
    requires !IsRoot(g'.arena[|g.arena|]) ==> |g'.runs| == |g.runs|
    ensures OwnRuns(g')
  {
    forall a, b | 0 <= a < b < |g'.arena| && IsRoot(g'.arena[a]) && IsRoot(g'.arena[b]) ensures g'.arena[a].run != g'.arena[b].run {
      AppendRoot(g, g', a);
      if b < |g.arena| {
        AppendRoot(g, g', b);
      }
    }
    forall r | 0 <= r < |g'.runs| && g'.runs[r].kind == SandboxExec ensures Rooted(g'.arena, r) {
      if r < |g.runs| {
        AppendRooted(g, g', r);
      }
    }
  }

  lemma AppendRoot(g: Graph, g': Graph, a: nat)
    requires MemberInv(g) && Extends(g, g') && a < |g.arena|
    ensures g'.arena[a] == g.arena[a] && (IsRoot(g.arena[a]) ==> g.arena[a].run != Some(|g.runs|))
  {
    ExtendsAt(g, g');
    if IsRoot(g.arena[a]) {
      RootHasRun(g, a);
    }
  }

  lemma AppendRooted(g: Graph, g': Graph, r: nat)
    requires MemberInv(g) && Extends(g, g') && r < |g.runs| && g.runs[r].kind == SandboxExec
    ensures Rooted(g'.arena, r)
  {
    assert Rooted(g.arena, r);
    var a :| 0 <= a < |g.arena| && IsRoot(g.arena[a]) && g.arena[a].run == Some(r);
    ExtendsAt(g, g');
    assert IsRoot(g'.arena[a]) && g'.arena[a].run == Some(r);
  }

  lemma AppendNested(g: Graph, g': Graph, a: nat)
    requires MemberInv(g) && Extends(g, g') && a < |g.arena| && IsRoot(g.arena[a])
    ensures IsRoot(g'.arena[a]) && NestedAt(g', a) && g'.arena[a].run.Some? && g'.arena[a].run.value < |g.runs|
  {
    AppendPlaced(g, g');
    assert NestedAt(g, a);
    var above := Nearest(g.arena, g.arena[a].prev.value);
    assert Nearest(g'.arena, g.arena[a].prev.value) == above;
  }

  lemma ForkKeeps(g: Graph, img: Image)
    requires GraphOk(g) && MemberInv(g) && FreshImage(img, |g.arena|) && !img.execSeen && img.parent.Some?
    ensures
      var g1 := g.(arena := g.arena + [img]);
      var run := g.arena[img.parent.value].run;
      MemberInv(if run.Some? then Join(g1, |g.arena|, run.value) else g1)
  {
    var g1 := g.(arena := g.arena + [img]);
    var p := img.parent.value;
    var run := g.arena[p].run;
    var g' := if run.Some? then Join(g1, |g.arena|, run.value) else g1;
    ForkExtends(g, img);
    assert PlacedAt(g', |g.arena|, Nearest(g'.arena, |g.arena|)) by {
      assert PlacedAt(g, p, Nearest(g.arena, p));
      NearestFrame(g.arena, g'.arena, p);
    }
    AppendKeeps(g, g');
  }

  lemma ForkExtends(g: Graph, img: Image)
    requires GraphOk(g) && FreshImage(img, |g.arena|) && img.parent.Some?
    ensures
      var g1 := g.(arena := g.arena + [img]);
      var run := g.arena[img.parent.value].run;
      var g' := if run.Some? then Join(g1, |g.arena|, run.value) else g1;
      Extends(g, g') && |g'.runs| == |g.runs|
  {
  }

  lemma JoinExecedKeeps(e: Env, g: Graph, ev: Event, actor: nat)
    requires GraphOk(g) && MemberInv(g) && actor < |g.arena|
    ensures
      var g1 := g.(arena := g.arena + [Execed(ev, actor, g.arena[actor].parent)]);
      MemberInv(JoinExeced(e, g1, ev, |g.arena|, g.arena[actor].run))
  {
    var n := |g.arena|;
    var g1 := g.(arena := g.arena + [Execed(ev, actor, g.arena[actor].parent)]);
    var g' := JoinExeced(e, g1, ev, n, g.arena[actor].run);
    ExecExtends(e, g, ev, actor);
    assert PlacedAt(g, actor, Nearest(g.arena, actor));
    NearestFrame(g.arena, g'.arena, actor);
    AppendKeeps(g, g');
  }

  lemma ExecExtends(e: Env, g: Graph, ev: Event, actor: nat)
    requires GraphOk(g) && actor < |g.arena|
    ensures
      var g1 := g.(arena := g.arena + [Execed(ev, actor, g.arena[actor].parent)]);
      Extends(g, JoinExeced(e, g1, ev, |g.arena|, g.arena[actor].run))
  {
  }

  lemma EndImageSettles(g: Graph, i: nat, end: End)
    requires GraphOk(g) && MemberInv(g) && i < |g.arena|
    ensures Settles(g, EndImage(g, i, end))
  {
    if g.arena[i].end.None? {
      var g1 := EndMember(g, i, end);
      assert Settles(g, g1);
      assert g.arena[i].run.Some? ==> SameMembers(g1, MaybeEndRun(g1, g.arena[i].run.value));
    }
  }

  /** Same images, same kinds and parents of runs. */
  predicate SameMembers(g: Graph, g': Graph) {
    && g'.arena == g.arena
    && |g.runs| == |g.db.runs| == |g'.runs| == |g'.db.runs|
    && (forall r | 0 <= r < |g.runs| :: g'.runs[r].kind == g.runs[r].kind && g'.db.runs[r].parentRun == g.db.runs[r].parentRun)
  }

  lemma HandleForkKeeps(s: State, ev: Event)
    requires WF(s) && MemberInv(s.graph)
    ensures MemberInv(HandleFork(s, ev).graph)
  {
    SeeBothKeeps(s, ev);
    var s1 := SeeBoth(s, ev);
    if ev.target.token !in s1.index.images {
      var parent := s1.index.images[ev.process.token];
      ForkKeeps(s1.graph, Forked(ev, parent, s1.graph.arena[parent].args, s1.graph.arena[parent].cwd));
    }
  }

  lemma SeeBothKeeps(s: State, ev: Event)
    requires WF(s) && MemberInv(s.graph)
    ensures MemberInv(SeeBoth(s, ev).graph)
  {
    if ev.process.token !in s.index.images {
      RegisterUnrelatedKeeps(s.graph, Untracked(ev.process));
    }
  }

  lemma HandleExecKeeps(e: Env, s: State, ev: Event)
    requires WF(s) && MemberInv(s.graph)
    ensures MemberInv(HandleExec(e, s, ev).graph)
  {
    SeeBothKeeps(s, ev);
    var s1 := SeeBoth(s, ev);
    if ev.target.token !in s1.index.images {
      var actor := s1.index.images[ev.process.token];
      JoinExecedKeeps(e, s1.graph, ev, actor);
      var g1 := s1.graph.(arena := s1.graph.arena + [Execed(ev, actor, s1.graph.arena[actor].parent)]);
      var g2 := JoinExeced(e, g1, ev, |s1.graph.arena|, s1.graph.arena[actor].run);
      EndImageSettles(g2, actor, End(ev.time, ByExec, None));
      SettlesKeeps(g2, EndImage(g2, actor, End(ev.time, ByExec, None)));
    }
  }

  lemma HandleESKeeps(e: Env, s: State, ev: Event)
    requires WF(s) && MemberInv(s.graph)
    ensures MemberInv(HandleES(e, s, ev).graph)
  {
    var s1 := s.(watermark := Later(s.watermark, ev.time));
    match ev.kind {
      case Fork => HandleForkKeeps(s1, ev);
      case Exec => HandleExecKeeps(e, s1, ev);
      case Exit =>
        if ev.process.token in s.index.images {
          var i := s.index.images[ev.process.token];
          var end := End(ev.time, ByExit, Some(ev.exitStatus));
          EndImageSettles(s.graph, i, end);
          SettlesKeeps(s.graph, EndImage(s.graph, i, end));
        }
      case OtherKind =>
    }
  }

  // ---------------------------------------------------------------------------------------------
  // Denials and ticks

  lemma AttributeKeeps(e: Env, s: State, p: nat, i: nat)
    requires WF(s) && MemberInv(s.graph) && p < |s.buffer.pendings| && i < |s.graph.arena| && s.graph.arena[i].run.Some?
    ensures MemberInv(Attribute(e, s, p, i).graph)
  {
    SettlesKeeps(s.graph, Attribute(e, s, p, i).graph);
  }

  lemma AdoptDenialKeeps(e: Env, s: State, p: nat, i: Option<nat>, m: Match)
    requires WF(s) && AdoptedKinds(s.caches, s.graph.runs) && MemberInv(s.graph)
    requires p < |s.buffer.pendings| && (i.Some? ==> i.value < |s.graph.arena|)
    ensures MemberInv(AdoptDenial(e, s, p, i, m).graph)
  {
    var d := s.buffer.pendings[p].d;
    var s1 := Adopt(s, m, d);
    var r := s1.caches.adopted[AdoptionKey(m)];
    SettlesKeeps(s.graph, s1.graph);
    var k := if i.Some? then i.value else |s1.graph.arena|;
    var s2 := if i.Some? then s1 else Register(s1, Stub(d.pid));
    if i.None? {
      RegisterUnrelatedKeeps(s1.graph, Stub(d.pid));
    }
    JoinSettles(s2.graph, k, r);
    SettlesKeeps(s2.graph, Join(s2.graph, k, r));
    AttributeKeeps(e, s2.(graph := Join(s2.graph, k, r)), p, k);
  }

  lemma FinalizeKeeps(e: Env, s0: State, p: nat, classify: bool)
    requires WF(s0) && AdoptedKinds(s0.caches, s0.graph.runs) && MemberInv(s0.graph) && p < |s0.buffer.pendings|
    ensures MemberInv(Finalize(e, s0, p, classify).graph)
  {
    var s := s0.(buffer := ForgetPending(s0.buffer, p));
    var d := s.buffer.pendings[p].d;
    var i := Resolve(s, d.pid, d.time);
    var m := Detect(e, d.message);
    if i.Some? && s.graph.arena[i.value].run.Some? {
      AttributeKeeps(e, s, p, i.value);
    } else if m.Some? && classify {
      AdoptDenialKeeps(e, s, p, i, m.value);
    } else if i.Some? && classify && e.entitlements.Some? {
      if IsCandidate(e, s, i.value) {
        JoinCandidateKeeps(s.graph, i.value);
        AttributeKeeps(e, s.(caches := CheckedEntitlement(e, s, i.value), graph := JoinCandidate(s.graph, i.value)), p, i.value);
      } else {
        StoreOrphanKeeps(s.(caches := CheckedEntitlement(e, s, i.value)), p);
      }
    } else {
      StoreOrphanKeeps(s, p);
    }
  }

  lemma StoreOrphanKeeps(s: State, p: nat)
    requires WF(s) && MemberInv(s.graph) && p < |s.buffer.pendings|
    ensures MemberInv(StoreOrphan(s, p).graph)
  {
    SettlesKeeps(s.graph, StoreOrphan(s, p).graph);
  }

  lemma TickOneKeeps(e: Env, s: State, p: nat, now: Time)
    requires Core(s) && MemberInv(s.graph) && p < |s.buffer.pendings|
    ensures MemberInv(TickOne(e, s, p, now).graph)
  {
    match Judge(e, s, p, now) {
      case FinalizeFully => FinalizeKeeps(e, s, p, true);
      case FinalizeLagging => FinalizeKeeps(e, s, p, false);
      case AttributeTo(i) => AttributeKeeps(e, s, p, i);
      case Keep =>
    }
  }

  lemma TickKeeps(e: Env, s: State, now: Time, order: seq<int>)
    requires Inv(s) && MemberInv(s.graph)
    ensures MemberInv(Tick(e, s, now, order).graph)
  {
    var Q := (t: Time, x: Index, pendings: seq<Pending>, g: Graph) => MemberInv(g);
    forall s1: State, p: nat | Core(s1) && Undecided(s1, p) && Holds(Q, s1) ensures Holds(Q, TickOne(e, s1, p, now)) {
      TickOneKeeps(e, s1, p, now);
    }
    TickStable(e, s, order, now, Q);
  }

  lemma HandleDenialKeeps(e: Env, s: State, d: Denial, now: Time)
    requires WF(s) && MemberInv(s.graph)
    ensures MemberInv(HandleDenial(e, s, d, now).graph)
  {
    if RouteOf(s, d).NoRow? {
      var s1 := s.(buffer := NewPending(s.buffer, d, now));
      var i := Attributable(s, d);
      if i.Some? {
        AttributeKeeps(e, s1, |s.buffer.pendings|, i.value);
      }
    } else {
      SettlesKeeps(s.graph, HandleDenial(e, s, d, now).graph);
    }
  }

  lemma {:induction false} MemberInvHolds(e: Env, steps: seq<Step>)
    requires Feasible(e, steps)
    ensures MemberInv(After(e, steps).graph)
    decreases |steps|
  {
    if steps != [] {
      var init := steps[..|steps| - 1];
      MemberInvHolds(e, init);
      InvHolds(e, init);
      ApplyKeeps(e, After(e, init), steps[|steps| - 1]);
    }
  }

  lemma ApplyKeeps(e: Env, s: State, step: Step)
    requires Inv(s) && MemberInv(s.graph)
    ensures MemberInv(Apply(e, s, step).graph)
  {
    match step {
      case ProcessEvent(ev) => HandleESKeeps(e, s, ev);
      case DenialLine(d, now) => HandleDenialKeeps(e, s, d, now);
      case TickAt(now, order) => TickKeeps(e, s, now, order);
    }
  }

  /** Image i belongs to the run of sandbox-exec image a exactly when a is its nearest sandbox-exec
    image, and it belongs to no sandbox-exec run exactly when it has none. */
  predicate NearestTree(g: Graph, i: nat, a: nat)
    requires EdgesOk(g.arena) && i < |g.arena| && a < |g.arena|
  {
    && (g.arena[i].run == g.arena[a].run <==> Nearest(g.arena, i) == Some(a))
    && (InKind(g, i, SandboxExec) <==> Nearest(g.arena, i).Some?)
  }

  lemma TreesOf(g: Graph, i: nat, a: nat)
    requires MemberInv(g) && i < |g.arena| && a < |g.arena| && IsRoot(g.arena[a])
    ensures NearestTree(g, i, a)
  {
    assert PlacedAt(g, i, Nearest(g.arena, i));
    assert PlacedAt(g, a, Nearest(g.arena, a));
  }

  /** In every state of every run, sandbox-exec runs are the trees of nearest descendants of their
    images, and a nested run points at the run its image was exec'd in, which is earlier. */
  lemma RunsAreNearestTrees(e: Env, steps: seq<Step>, i: nat, a: nat)
    requires Feasible(e, steps)
    requires i < |After(e, steps).graph.arena| && a < |After(e, steps).graph.arena| && IsRoot(After(e, steps).graph.arena[a])
    ensures
      var g := After(e, steps).graph;
      && NearestTree(g, i, a)
      && NestedAt(g, a)
      && (var r := g.arena[a].run.value; g.db.runs[r].parentRun.Some? ==> g.db.runs[r].parentRun.value < r)
  {
    var g := After(e, steps).graph;
    InvHolds(e, steps);
    MemberInvHolds(e, steps);
    TreesOf(g, i, a);
    assert NestedAt(g, a);
    var r := g.arena[a].run.value;
    assert GI.RunRowFollows(g.runs[r], g.db.runs[r], r);
  }
}
