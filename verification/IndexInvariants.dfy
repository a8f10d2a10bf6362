/** The two indexes of tracked images agree with each other and with the images. */
module IndexInvariants {
  import opened Events
  import opened Tables
  import opened Model
  import opened Handlers

  predicate Distinct<T(==)>(list: seq<T>) {
    forall a, b | 0 <= a < b < |list| :: list[a] != list[b]
  }

  predicate SortedByStart(arena: seq<Image>, list: seq<nat>)
    requires InRange(list, |arena|)
  {
    forall a, b | 0 <= a < b < |list| :: arena[list[a]].start <= arena[list[b]].start
  }

  /** The list of a pid holds distinct images of that pid in start order, tokens included in `images`. */
  ghost predicate PidList(arena: seq<Image>, images: map<Token, nat>, pid: int, list: seq<nat>) {
    && list != []
    && InRange(list, |arena|)
    && Distinct(list)
    && SortedByStart(arena, list)
    && forall k | 0 <= k < |list| ::
         && arena[list[k]].proc.token.pid == pid
         && (!arena[list[k]].noToken ==> arena[list[k]].proc.token in images && images[arena[list[k]].proc.token] == list[k])
  }

  /** Image i is tracked under its token, and listed under its pid. */
  predicate Tracked(arena: seq<Image>, x: Index, tok: Token, i: nat) {
    && i < |arena|
    && arena[i].proc.token == tok
    && !arena[i].noToken
    && tok.pid in x.byPID
    && i in x.byPID[tok.pid]
  }

  /** `images` is exactly the non-stub members of `byPID`, by token. */
  ghost predicate IndexInv(arena: seq<Image>, x: Index) {
    && (forall tok | tok in x.images :: Tracked(arena, x, tok, x.images[tok]))
    && (forall pid | pid in x.byPID :: PidList(arena, x.images, pid, x.byPID[pid]))
  }

  /** An image that eviction has not released. */
  predicate Listed(arena: seq<Image>, x: Index, i: nat) {
    i < |arena| && arena[i].proc.token.pid in x.byPID && i in x.byPID[arena[i].proc.token.pid]
  }

  // ---------------------------------------------------------------------------------------------
  // Registration

  lemma {:induction false} InsertMembers(arena: seq<Image>, list: seq<nat>, i: nat)
    requires i < |arena| && InRange(list, |arena|)
    ensures forall x :: x in InsertByStart(arena, list, i) <==> x in list || x == i
    decreases |list|
  {
    if list != [] && arena[list[|list| - 1]].start > arena[i].start {
      InsertMembers(arena, list[..|list| - 1], i);
      assert list == list[..|list| - 1] + [list[|list| - 1]];
    }
  }

  /** Where a new image goes: after every image that does not start later. */
  predicate InsertionPoint(arena: seq<Image>, list: seq<nat>, i: nat, k: nat)
    requires i < |arena| && InRange(list, |arena|)
  {
    && k <= |list|
    && (forall a | 0 <= a < k :: arena[list[a]].start <= arena[i].start)
    && (forall a | k <= a < |list| :: arena[list[a]].start > arena[i].start)
  }

  /** The insertion is the stable sort: it puts the image at its insertion point. */
  lemma {:induction false} InsertPoint(arena: seq<Image>, list: seq<nat>, i: nat) returns (k: nat)
    requires i < |arena| && InRange(list, |arena|) && SortedByStart(arena, list)
    ensures InsertionPoint(arena, list, i, k)
    ensures InsertByStart(arena, list, i) == list[..k] + [i] + list[k..]
    decreases |list|
  {
    var n := |list|;
    if list == [] || arena[list[n - 1]].start <= arena[i].start {
      k := n;
    } else {
      k := InsertPoint(arena, list[..n - 1], i);
      assert list[..n - 1][..k] == list[..k];
      assert list[..n - 1][k..] + [list[n - 1]] == list[k..];
    }
  }

  lemma InsertSorts(arena: seq<Image>, list: seq<nat>, i: nat)
    requires i < |arena| && InRange(list, |arena|) && SortedByStart(arena, list) && Distinct(list) && i !in list
    ensures SortedByStart(arena, InsertByStart(arena, list, i)) && Distinct(InsertByStart(arena, list, i))
  {
    var k := InsertPoint(arena, list, i);
  }

  lemma PidListGrows(arena: seq<Image>, img: Image, images: map<Token, nat>, pid: int, list: seq<nat>)
    requires PidList(arena, images, pid, list)
    requires !img.noToken ==> img.proc.token !in images
    ensures PidList(arena + [img], if img.noToken then images else images[img.proc.token := |arena|], pid, list)
  {
  }

  lemma IndexedKeeps(arena: seq<Image>, x: Index, img: Image)
    requires IndexOk(x, |arena|) && IndexInv(arena, x)
    requires !img.noToken ==> img.proc.token !in x.images
    ensures IndexInv(arena + [img], Indexed(x, arena + [img], |arena|))
  {
    var i := |arena|;
    var arena' := arena + [img];
    var x' := Indexed(x, arena', i);
    var p := img.proc.token.pid;
    var list := ListOf(x.byPID, p);
    InsertMembers(arena', list, i);
    InsertSorts(arena', list, i);
    forall tok | tok in x'.images ensures Tracked(arena', x', tok, x'.images[tok]) {
      if tok in x.images && x'.images[tok] == x.images[tok] {
        assert Tracked(arena, x, tok, x.images[tok]);
      }
    }
    forall pid | pid in x'.byPID ensures PidList(arena', x'.images, pid, x'.byPID[pid]) {
      if pid in x.byPID {
        PidListGrows(arena, img, x.images, pid, x.byPID[pid]);
      }
      if pid == p {
        NewPidList(arena', x'.images, pid, list, i);
      }
    }
  }

  lemma NewPidList(arena: seq<Image>, images: map<Token, nat>, pid: int, list: seq<nat>, i: nat)
    requires list == [] || PidList(arena, images, pid, list)
    requires i < |arena| && i !in list && arena[i].proc.token.pid == pid
    requires !arena[i].noToken ==> arena[i].proc.token in images && images[arena[i].proc.token] == i
    ensures PidList(arena, images, pid, InsertByStart(arena, list, i))
  {
    InsertMembers(arena, list, i);
    InsertSorts(arena, list, i);
    var r := InsertByStart(arena, list, i);
    forall k | 0 <= k < |r|
      ensures arena[r[k]].proc.token.pid == pid
      ensures !arena[r[k]].noToken ==> arena[r[k]].proc.token in images && images[arena[r[k]].proc.token] == r[k]
    {
      assert r[k] in r;
    }
    assert i in r;
  }

  // ---------------------------------------------------------------------------------------------
  // Operations that leave the identity of images alone

  predicate SameImage(a: Image, b: Image) {
    b == a.(end := b.end, run := b.run, rowID := b.rowID, denialKeys := b.denialKeys)
  }

  /** Only the end, the run, the row and the denial keys of existing images differ. */
  predicate SameIdentities(a: seq<Image>, b: seq<Image>) {
    |a| == |b| && forall i | 0 <= i < |a| :: SameImage(a[i], b[i])
  }

  lemma IndexFrame(a: seq<Image>, b: seq<Image>, x: Index)
    requires IndexInv(a, x) && SameIdentities(a, b)
    ensures IndexInv(b, x)
  {
    forall tok | tok in x.images ensures Tracked(b, x, tok, x.images[tok]) {
      assert Tracked(a, x, tok, x.images[tok]);
    }
    forall pid | pid in x.byPID ensures PidList(b, x.images, pid, x.byPID[pid]) {
      assert PidList(a, x.images, pid, x.byPID[pid]);
    }
  }

  lemma JoinFrame(g: Graph, i: nat, r: nat)
    requires GraphOk(g) && i < |g.arena| && r < |g.runs|
    ensures SameIdentities(g.arena, Join(g, i, r).arena)
  {
  }

  lemma {:induction false} JoinAllFrame(g: Graph, path: seq<nat>, r: nat)
    requires GraphOk(g) && InRange(path, |g.arena|) && r < |g.runs|
    ensures SameIdentities(g.arena, JoinAll(g, path, r).arena)
    decreases |path|
  {
    if path != [] {
      JoinAllFrame(g, path[..|path| - 1], r);
      JoinFrame(JoinAll(g, path[..|path| - 1], r), path[|path| - 1], r);
    }
  }

  lemma MaybeEndRunFrame(g: Graph, r: nat)
    requires GraphOk(g) && r < |g.runs|
    ensures MaybeEndRun(g, r).arena == g.arena
  {
  }

  lemma JoinCandidateFrame(g: Graph, i: nat)
    requires GraphOk(g) && i < |g.arena| && Eligible(g.arena, i)
    ensures SameIdentities(g.arena, JoinCandidate(g, i).arena)
  {
    var root := g.arena[RootOf(g.arena, i)];
    if root.run.Some? {
      JoinAllFrame(g, PathTo(g.arena, i), root.run.value);
    } else {
      JoinAllFrame(AddRun(g, SandboxInitRow(root), false), PathTo(g.arena, i), |g.runs|);
    }
  }

  lemma EndImageFrame(g: Graph, i: nat, end: End)
    requires GraphOk(g) && i < |g.arena|
    ensures SameIdentities(g.arena, EndImage(g, i, end).arena)
  {
    if g.arena[i].end.None? {
      EndMemberFrame(g, i, end);
    }
  }

  lemma EndMemberFrame(g: Graph, i: nat, end: End)
    requires GraphOk(g) && i < |g.arena| && g.arena[i].end.None?
    ensures SameIdentities(g.arena, EndMember(g, i, end).arena)
    ensures EndImage(g, i, end).arena == EndMember(g, i, end).arena
  {
  }

  lemma JoinExecedFrame(e: Env, g: Graph, ev: Event, i: nat, actorRun: Option<nat>)
    requires GraphOk(g) && i < |g.arena| && (actorRun.Some? ==> actorRun.value < |g.runs|)
    ensures SameIdentities(g.arena, JoinExeced(e, g, ev, i, actorRun).arena)
  {
    if ev.target.path == SANDBOX_EXEC_PATH {
      JoinFrame(StartSandboxExecRun(e, g, ev, actorRun), i, |g.runs|);
    } else if actorRun.Some? {
      JoinFrame(g, i, actorRun.value);
    }
  }

  lemma FinishExecFrame(e: Env, g: Graph, ev: Event, i: nat, actor: nat)
    requires GraphOk(g) && i < |g.arena| && actor < |g.arena|
    ensures SameIdentities(g.arena, FinishExec(e, g, ev, i, actor).arena)
  {
    JoinExecedFrame(e, g, ev, i, g.arena[actor].run);
    EndImageFrame(JoinExeced(e, g, ev, i, g.arena[actor].run), actor, End(ev.time, ByExec, None));
  }

  // ---------------------------------------------------------------------------------------------
  // Resolution

  lemma {:induction false} ResolvedIsListed(arena: seq<Image>, list: seq<nat>, t: Time)
    requires InRange(list, |arena|)
    ensures ResolveIn(arena, list, t).Some? ==> ResolveIn(arena, list, t).value in list
    decreases |list|
  {
    if list != [] {
      ResolvedIsListed(arena, list[..|list| - 1], t);
    }
  }

  /** Resolving a pid yields one of its own, still tracked images. */
  lemma ResolveFinds(s: State, pid: int, t: Time)
    requires WF(s) && IndexInv(s.graph.arena, s.index)
    ensures
      var i := Resolve(s, pid, t);
      i.Some? ==> Listed(s.graph.arena, s.index, i.value) && s.graph.arena[i.value].proc.token.pid == pid
  {
    ResolvedIsListed(s.graph.arena, ListOf(s.index.byPID, pid), t);
    if pid in s.index.byPID {
      assert PidList(s.graph.arena, s.index.images, pid, s.index.byPID[pid]);
    }
  }

  // ---------------------------------------------------------------------------------------------
  // Eviction

  lemma {:induction false} RetainedMembers(arena: seq<Image>, list: seq<nat>, cutoff: Time)
    requires InRange(list, |arena|)
    ensures forall i :: i in Retained(arena, list, cutoff) <==> i in list && !Evictable(arena[i], cutoff)
    decreases |list|
  {
    if list != [] {
      RetainedMembers(arena, list[..|list| - 1], cutoff);
      assert list == list[..|list| - 1] + [list[|list| - 1]];
    }
  }

  lemma {:induction false} RetainedSorted(arena: seq<Image>, list: seq<nat>, cutoff: Time)
    requires InRange(list, |arena|) && Distinct(list) && SortedByStart(arena, list)
    ensures Distinct(Retained(arena, list, cutoff)) && SortedByStart(arena, Retained(arena, list, cutoff))
    decreases |list|
  {
    if list != [] {
      var rest := list[..|list| - 1];
      var last := list[|list| - 1];
      RetainedSorted(arena, rest, cutoff);
      RetainedMembers(arena, rest, cutoff);
      var kept := Retained(arena, rest, cutoff);
      forall a | 0 <= a < |kept| ensures kept[a] != last && arena[kept[a]].start <= arena[last].start {
        assert kept[a] in kept && kept[a] in rest;
      }
    }
  }

  /** After eviction the indexes still agree: an ended image that is too old leaves both at once. */
  lemma EvictKeeps(arena: seq<Image>, x: Index, cutoff: Time)
    requires IndexOk(x, |arena|) && IndexInv(arena, x)
    ensures IndexInv(arena, EvictIndex(arena, x, cutoff))
  {
    var x' := EvictIndex(arena, x, cutoff);
    forall tok | tok in x'.images ensures Tracked(arena, x', tok, x'.images[tok]) {
      assert Tracked(arena, x, tok, x.images[tok]);
      RetainedMembers(arena, x.byPID[tok.pid], cutoff);
      assert x.images[tok] in Retained(arena, x.byPID[tok.pid], cutoff);
    }
    forall pid | pid in x'.byPID ensures PidList(arena, x'.images, pid, x'.byPID[pid]) {
      var list := x.byPID[pid];
      assert PidList(arena, x.images, pid, list);
      RetainedMembers(arena, list, cutoff);
      RetainedSorted(arena, list, cutoff);
      var kept := Retained(arena, list, cutoff);
      forall k | 0 <= k < |kept|
        ensures arena[kept[k]].proc.token.pid == pid
        ensures !arena[kept[k]].noToken ==> arena[kept[k]].proc.token in x'.images && x'.images[arena[kept[k]].proc.token] == kept[k]
      {
        assert kept[k] in kept;
        var j :| 0 <= j < |list| && list[j] == kept[k];
      }
    }
  }
}
