/** The images of a pid follow one another in time when the event stream is ordered; then eviction
  does not show, and what a pid was at a settled time stays settled over whole runs. */
module Timeline {
  import opened Events
  import opened Tables
  import opened Model
  import opened Handlers
  import opened IndexInvariants
  import opened Invariant
  import opened Behaviour
  import opened Finality

  // ---------------------------------------------------------------------------------------------
  // Timelines and ordered streams

  /** The image ran in an interval that is over by w, or is still running. */
  predicate RanBy(img: Image, w: Time) {
    img.start <= w && (img.end.Some? ==> img.start <= img.end.value.at <= w)
  }

  predicate EndedBefore(a: Image, t: Time) {
    a.end.Some? && a.end.value.at <= t
  }

  /** The listed images ran one after the other, none of them beyond w. */
  predicate InTurn(arena: seq<Image>, list: seq<nat>, w: Time)
    requires InRange(list, |arena|)
  {
    && (forall k | 0 <= k < |list| :: RanBy(arena[list[k]], w))
    && (forall a, b | 0 <= a < b < |list| :: EndedBefore(arena[list[a]], arena[list[b]].start))
  }

  predicate StubFreeIn(arena: seq<Image>, list: seq<nat>)
    requires InRange(list, |arena|)
  {
    forall k | 0 <= k < |list| :: !arena[list[k]].noToken
  }

  /** No adoption stub stands for the pid. */
  predicate StubFree(s: State, pid: int)
    requires WF(s)
  {
    StubFreeIn(s.graph.arena, ListOf(s.index.byPID, pid))
  }

  predicate Timely(s: State, pid: int)
    requires WF(s)
  {
    StubFree(s, pid) ==> InTurn(s.graph.arena, ListOf(s.index.byPID, pid), s.watermark)
  }

  /** Every process the pid is known to have been was over by t. */
  predicate FreeSince(s: State, pid: int, t: Time)
    requires WF(s)
  {
    var list := ListOf(s.index.byPID, pid);
    forall k | 0 <= k < |list| :: s.graph.arena[list[k]].noToken || EndedBefore(s.graph.arena[list[k]], t)
  }

  /** The actor of a fork or exec is running, or is a process met for the first time. */
  predicate MayAct(s: State, p: Proc, t: Time)
    requires WF(s)
  {
    if p.token in s.index.images then s.graph.arena[s.index.images[p.token]].end.None?
    else p.startTime <= t && FreeSince(s, p.token.pid, p.startTime)
  }

  /** An event of a stream in order: not older than earlier events, by a running actor, and with a
    fresh target, which for an exec keeps the pid and for a fork takes a free one. */
  predicate Ordered(s: State, ev: Event)
    requires WF(s)
  {
    && ev.time >= s.watermark
    && (ev.kind == Fork || ev.kind == Exec ==>
          && MayAct(s, ev.process, ev.time)
          && ev.target.token !in s.index.images && ev.target.token != ev.process.token
          && if ev.kind == Exec then ev.target.token.pid == ev.process.token.pid
             else ev.target.token.pid != ev.process.token.pid && FreeSince(s, ev.target.token.pid, ev.time))
  }

  // ---------------------------------------------------------------------------------------------
  // Lists

  predicate Timed(a: Image, b: Image) {
    b.proc == a.proc && b.noToken == a.noToken && b.start == a.start && b.end == a.end
  }

  /** Images were added; no image changed its identity, start or end. */
  predicate SameTimes(a: seq<Image>, b: seq<Image>) {
    |a| <= |b| && forall i | 0 <= i < |a| :: Timed(a[i], b[i])
  }

  lemma InTurnFrame(a: seq<Image>, b: seq<Image>, list: seq<nat>, w: Time, w': Time)
    requires InRange(list, |a|) && SameTimes(a, b) && InTurn(a, list, w) && w <= w'
    ensures InTurn(b, list, w')
  {
    assert forall k | 0 <= k < |list| :: Timed(a[list[k]], b[list[k]]);
  }

  /** An image that starts when all listed ones are over is listed last, in turn. */
  lemma AppendsInTurn(arena: seq<Image>, list: seq<nat>, i: nat, w: Time)
    requires InRange(list, |arena|) && i < |arena| && InTurn(arena, list, w) && RanBy(arena[i], w)
    requires forall k | 0 <= k < |list| :: EndedBefore(arena[list[k]], arena[i].start)
    ensures InsertByStart(arena, list, i) == list + [i] && InTurn(arena, list + [i], w)
  {
  }

  /** The only image of a list in turn that still runs is the last one. */
  lemma RunningIsLast(arena: seq<Image>, list: seq<nat>, i: nat, w: Time)
    requires InRange(list, |arena|) && InTurn(arena, list, w) && i in list && arena[i].end.None?
    ensures list != [] && list[|list| - 1] == i
  {
    var k :| 0 <= k < |list| && list[k] == i;
    assert k < |list| - 1 ==> EndedBefore(arena[list[k]], arena[list[|list| - 1]].start);
  }

  /** Image i ends at t; every other image keeps its times. */
  predicate EndsAt(a: seq<Image>, b: seq<Image>, i: nat, t: Time) {
    && |a| <= |b| && i < |a|
    && b[i].proc == a[i].proc && b[i].noToken == a[i].noToken && b[i].start == a[i].start
    && b[i].end.Some? && b[i].end.value.at == t
    && forall k | 0 <= k < |a| && k != i :: Timed(a[k], b[k])
  }

  lemma LastEndsInTurn(a: seq<Image>, b: seq<Image>, list: seq<nat>, i: nat, w: Time, t: Time)
    requires InRange(list, |a|) && InTurn(a, list, w) && Distinct(list) && EndsAt(a, b, i, t) && w <= t && a[i].end.None?
    ensures InTurn(b, list, t)
  {
    if i in list {
      RunningIsLast(a, list, i, w);
    }
    forall k | 0 <= k < |list| ensures RanBy(b[list[k]], t) && (list[k] != i ==> Timed(a[list[k]], b[list[k]])) {
      assert RanBy(a[list[k]], w);
    }
    forall x, y | 0 <= x < y < |list| ensures EndedBefore(b[list[x]], b[list[y]].start) {
      assert EndedBefore(a[list[x]], a[list[y]].start);
    }
  }

  /** An exec at t: the running last image ends and the new image starts in its place. */
  lemma ExecsInTurn(a: seq<Image>, b: seq<Image>, list: seq<nat>, i: nat, j: nat, w: Time, t: Time)
    requires InRange(list, |a|) && InTurn(a, list, w) && Distinct(list) && i in list && EndsAt(a, b, i, t) && a[i].end.None?
    requires |a| <= j < |b| && b[j].start == t && b[j].end.None? && w <= t
    ensures InTurn(b, list + [j], t)
  {
    RunningIsLast(a, list, i, w);
    LastEndsInTurn(a, b, list, i, w, t);
    forall k | 0 <= k < |list| ensures EndedBefore(b[list[k]], t) {
      if list[k] != i {
        assert EndedBefore(a[list[k]], a[list[|list| - 1]].start);
        assert Timed(a[list[k]], b[list[k]]);
      }
    }
  }

  // ---------------------------------------------------------------------------------------------
  // Process events keep the timelines

  lemma StubFreeBack(arena: seq<Image>, list: seq<nat>, list': seq<nat>)
    requires InRange(list, |arena|) && InRange(list', |arena|) && StubFreeIn(arena, list')
    requires forall i | i in list :: i in list'
    ensures StubFreeIn(arena, list)
  {
    forall k | 0 <= k < |list| ensures !arena[list[k]].noToken {
      assert list[k] in list';
    }
  }

  /** A new process on a free pid. */
  lemma RegisterTimely(s: State, img: Image, pid: int)
    requires WF(s) && Timely(s, pid) && FreshImage(img, |s.graph.arena|) && !img.noToken
    requires img.start <= s.watermark && FreeSince(s, img.proc.token.pid, img.start)
    ensures Timely(Register(s, img), pid)
  {
    var i := |s.graph.arena|;
    var arena := s.graph.arena + [img];
    var list := ListOf(s.index.byPID, pid);
    if StubFree(Register(s, img), pid) {
      InsertMembers(arena, list, i);
      StubFreeBack(arena, list, ListOf(Register(s, img).index.byPID, pid));
      StubFreeFrame(s.graph.arena, img, list);
      InTurnFrame(s.graph.arena, arena, list, s.watermark, s.watermark);
      if pid == img.proc.token.pid {
        FreeFrame(s.graph.arena, img, list);
        AppendsInTurn(arena, list, i, s.watermark);
      }
    }
  }

  lemma StubFreeFrame(arena: seq<Image>, img: Image, list: seq<nat>)
    requires InRange(list, |arena|) && StubFreeIn(arena + [img], list)
    ensures StubFreeIn(arena, list)
  {
    assert forall k | 0 <= k < |list| :: (arena + [img])[list[k]] == arena[list[k]];
  }

  lemma FreeFrame(arena: seq<Image>, img: Image, list: seq<nat>)
    requires InRange(list, |arena|) && StubFreeIn(arena, list)
    requires forall k | 0 <= k < |list| :: arena[list[k]].noToken || EndedBefore(arena[list[k]], img.start)
    ensures forall k | 0 <= k < |list| :: EndedBefore((arena + [img])[list[k]], img.start)
  {
    assert forall k | 0 <= k < |list| :: (arena + [img])[list[k]] == arena[list[k]];
  }

  lemma SeeBothTimely(s: State, ev: Event, pid: int)
    requires WF(s) && Timely(s, pid) && ev.time <= s.watermark && MayAct(s, ev.process, ev.time)
    ensures Timely(SeeBoth(s, ev), pid)
  {
    if ev.process.token !in s.index.images {
      RegisterTimely(s, Untracked(ev.process), pid);
    }
  }

  lemma SeeBothFree(s: State, ev: Event, t: Time)
    requires WF(s) && FreeSince(s, ev.target.token.pid, t) && ev.target.token.pid != ev.process.token.pid
    ensures FreeSince(SeeBoth(s, ev), ev.target.token.pid, t)
  {
  }

  /** Replacing the graph by one with the same times. */
  lemma TimelyFrame(s: State, g: Graph, pid: int)
    requires WF(s) && Timely(s, pid) && WF(s.(graph := g)) && SameTimes(s.graph.arena, g.arena)
    ensures Timely(s.(graph := g), pid)
  {
    var list := ListOf(s.index.byPID, pid);
    assert forall k | 0 <= k < |list| :: Timed(s.graph.arena[list[k]], g.arena[list[k]]);
    if StubFree(s, pid) {
      InTurnFrame(s.graph.arena, g.arena, list, s.watermark, s.watermark);
    }
  }

  lemma ForkTimely(s: State, ev: Event, pid: int)
    requires WF(s) && Timely(s, pid) && ev.kind == Fork && Ordered(s, ev) && s.watermark == ev.time
    ensures Timely(HandleFork(s, ev), pid)
  {
    SeeBothTimely(s, ev, pid);
    SeeBothFree(s, ev, ev.time);
    var s1 := SeeBoth(s, ev);
    if ev.target.token !in s1.index.images {
      var parent := s1.index.images[ev.process.token];
      var img := s1.graph.arena[parent];
      var s2 := Register(s1, Forked(ev, parent, img.args, img.cwd));
      RegisterTimely(s1, Forked(ev, parent, img.args, img.cwd), pid);
      if img.run.Some? {
        TimelyFrame(s2, Join(s2.graph, |s1.graph.arena|, img.run.value), pid);
      }
    }
  }

  lemma FinishExecEndsAt(e: Env, g: Graph, ev: Event, i: nat, actor: nat)
    requires GraphOk(g) && i < |g.arena| && actor < |g.arena| && i != actor && g.arena[actor].end.None?
    ensures EndsAt(g.arena, FinishExec(e, g, ev, i, actor).arena, actor, ev.time)
  {
    var g1 := JoinExeced(e, g, ev, i, g.arena[actor].run);
    assert SameTimes(g.arena, g1.arena);
    EndImageEndsAt(g1, actor, End(ev.time, ByExec, None));
  }

  lemma EndImageEndsAt(g: Graph, i: nat, end: End)
    requires GraphOk(g) && i < |g.arena| && g.arena[i].end.None?
    ensures EndsAt(g.arena, EndImage(g, i, end).arena, i, end.at)
  {
  }

  /** The running actor of an exec is the last image of its pid, and the new image replaces it. */
  lemma ExecTimely(e: Env, s: State, ev: Event, pid: int)
    requires WF(s) && IndexInv(s.graph.arena, s.index) && Timely(s, pid) && ev.kind == Exec && Ordered(s, ev) && s.watermark == ev.time
    ensures Timely(HandleExec(e, s, ev), pid)
  {
    SeeBothTimely(s, ev, pid);
    var s1 := SeeBoth(s, ev);
    if ev.process.token !in s.index.images {
      IndexedKeeps(s.graph.arena, s.index, Untracked(ev.process));
    }
    ExecFrom(e, s1, ev, pid);
  }

  lemma ExecFrom(e: Env, s: State, ev: Event, pid: int)
    requires WF(s) && IndexInv(s.graph.arena, s.index) && Timely(s, pid) && s.watermark == ev.time
    requires ev.process.token in s.index.images && s.graph.arena[s.index.images[ev.process.token]].end.None?
    requires ev.target.token !in s.index.images && ev.target.token.pid == ev.process.token.pid
    ensures
      var actor := s.index.images[ev.process.token];
      var s2 := Register(s, Execed(ev, actor, s.graph.arena[actor].parent));
      Timely(s2.(graph := FinishExec(e, s2.graph, ev, |s.graph.arena|, actor)), pid)
  {
    var actor := s.index.images[ev.process.token];
    var img := Execed(ev, actor, s.graph.arena[actor].parent);
    var s2 := Register(s, img);
    assert Tracked(s.graph.arena, s.index, ev.process.token, actor);
    FinishExecEndsAt(e, s2.graph, ev, |s.graph.arena|, actor);
    var g := FinishExec(e, s2.graph, ev, |s.graph.arena|, actor);
    assert s2.graph.arena[actor] == s.graph.arena[actor];
    ReplacesInTurn(s, actor, img, g.arena, pid, ev.time);
  }

  lemma EndsAtBefore(a: seq<Image>, img: Image, b: seq<Image>, actor: nat, t: Time)
    requires actor < |a| && EndsAt(a + [img], b, actor, t)
    ensures EndsAt(a, b, actor, t)
  {
    assert forall k | 0 <= k < |a| :: (a + [img])[k] == a[k];
  }

  lemma ListIsDistinct(s: State, pid: int)
    requires WF(s) && IndexInv(s.graph.arena, s.index)
    ensures Distinct(ListOf(s.index.byPID, pid))
  {
    var list := ListOf(s.index.byPID, pid);
    assert list != [] ==> PidList(s.graph.arena, s.index.images, pid, list);
  }

  lemma ReplacesInTurn(s: State, actor: nat, img: Image, b: seq<Image>, pid: int, t: Time)
    requires WF(s) && IndexInv(s.graph.arena, s.index) && Timely(s, pid) && s.watermark == t
    requires Listed(s.graph.arena, s.index, actor) && s.graph.arena[actor].end.None?
    requires FreshImage(img, |s.graph.arena|) && img.start == t && !img.noToken
    requires img.proc.token.pid == s.graph.arena[actor].proc.token.pid
    requires EndsAt(s.graph.arena + [img], b, actor, t)
    ensures
      var list' := ListOf(Register(s, img).index.byPID, pid);
      InRange(list', |b|) && (StubFreeIn(b, list') ==> InTurn(b, list', t))
  {
    var a := s.graph.arena;
    var list := ListOf(s.index.byPID, pid);
    var list' := ListOf(Register(s, img).index.byPID, pid);
    EndsAtBefore(a, img, b, actor, t);
    if StubFreeIn(b, list') {
      InsertMembers(a + [img], list, |a|);
      StubFreeBack(b, list, list');
      ListIsDistinct(s, pid);
      StubFreeBackFrom(a, b, list);
      if pid == img.proc.token.pid {
        assert actor in list;
        LaterGoesLast(a, img, list, t);
        ExecsInTurn(a, b, list, actor, |a|, t, t);
      } else {
        LastEndsInTurn(a, b, list, actor, t, t);
      }
    }
  }

  lemma StubFreeBackFrom(a: seq<Image>, b: seq<Image>, list: seq<nat>)
    requires InRange(list, |a|) && |a| <= |b| && StubFreeIn(b, list)
    requires forall k | 0 <= k < |a| :: a[k].noToken == b[k].noToken
    ensures StubFreeIn(a, list)
  {
  }

  lemma LaterGoesLast(arena: seq<Image>, img: Image, list: seq<nat>, t: Time)
    requires InRange(list, |arena|) && InTurn(arena, list, t) && img.start == t
    ensures InsertByStart(arena + [img], list, |arena|) == list + [|arena|]
  {
    assert forall k | 0 <= k < |list| :: RanBy(arena[list[k]], t) && (arena + [img])[list[k]] == arena[list[k]];
  }

  lemma ExitTimely(s: State, ev: Event, pid: int)
    requires WF(s) && IndexInv(s.graph.arena, s.index) && Timely(s, pid) && s.watermark == ev.time
    ensures Timely(HandleExit(s, ev), pid)
  {
    if ev.process.token in s.index.images {
      var i := s.index.images[ev.process.token];
      var list := ListOf(s.index.byPID, pid);
      if s.graph.arena[i].end.None? && StubFree(HandleExit(s, ev), pid) {
        var end := End(ev.time, ByExit, Some(ev.exitStatus));
        EndImageEndsAt(s.graph, i, end);
        var b := EndImage(s.graph, i, end).arena;
        assert forall k | 0 <= k < |list| :: s.graph.arena[list[k]].noToken == b[list[k]].noToken;
        assert list != [] ==> PidList(s.graph.arena, s.index.images, pid, list);
        LastEndsInTurn(s.graph.arena, b, list, i, s.watermark, ev.time);
      }
    }
  }

  /** An event in order keeps every pid's images in turn. */
  lemma EventTimely(e: Env, s: State, ev: Event, pid: int)
    requires WF(s) && IndexInv(s.graph.arena, s.index) && Timely(s, pid) && Ordered(s, ev)
    ensures Timely(HandleES(e, s, ev), pid)
  {
    var s1 := s.(watermark := Later(s.watermark, ev.time));
    if StubFree(s, pid) {
      InTurnFrame(s.graph.arena, s.graph.arena, ListOf(s.index.byPID, pid), s.watermark, s1.watermark);
    }
    match ev.kind {
      case Fork => ForkTimely(s1, ev, pid);
      case Exec => ExecTimely(e, s1, ev, pid);
      case Exit => ExitTimely(s1, ev, pid);
      case OtherKind =>
    }
  }
}
