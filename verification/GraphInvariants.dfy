/** What every operation keeps of images, runs and the rows written for them. */
module GraphInvariants {
  import opened Events
  import opened Tables
  import opened Model
  import opened Handlers

  // ---------------------------------------------------------------------------------------------
  // Live sets

  /** The live set of every run is exactly its members that have not ended. */
  ghost predicate LiveSets(arena: seq<Image>, runs: seq<Run>) {
    forall r | 0 <= r < |runs| :: IsLiveSet(arena, r, runs[r].live)
  }

  ghost predicate IsLiveSet(arena: seq<Image>, r: nat, live: set<nat>) {
    forall i: nat :: i in live <==> i < |arena| && arena[i].run == Some(r) && arena[i].end.None?
  }

  // ---------------------------------------------------------------------------------------------
  // Ends of runs

  /** The recorded last end of a run is the latest end of its members, or the zero time. */
  ghost predicate LastEnds(arena: seq<Image>, runs: seq<Run>) {
    forall r | 0 <= r < |runs| :: IsLastEnd(arena, r, runs[r].lastEnd)
  }

  predicate EndedIn(img: Image, r: nat) {
    img.run == Some(r) && img.end.Some?
  }

  ghost predicate IsLastEnd(arena: seq<Image>, r: nat, t: Time) {
    && t >= ZERO_TIME
    && (forall i | 0 <= i < |arena| :: EndedIn(arena[i], r) ==> arena[i].end.value.at <= t)
    && (t == ZERO_TIME || exists i | 0 <= i < |arena| :: EndedIn(arena[i], r) && arena[i].end.value.at == t)
  }

  /** A run's row follows the run: one EndRun call exactly when the run is ended. */
  predicate RunRowFollows(run: Run, row: RunRow, r: nat) {
    && row.kind == run.kind
    && row.ends == (if run.ended then 1 else 0)
    && row.status == (if run.ended then Exited else Running)
    && (!run.ended ==> row.endedAt.None?)
    && (run.kind == Adopted ==> !run.ended)
    && run.hasSession == row.session.Some?
    && (row.parentRun.Some? ==> row.parentRun.value < r)
  }

  predicate RunRows(runs: seq<Run>, rows: seq<RunRow>) {
    |runs| == |rows| && forall r | 0 <= r < |runs| :: RunRowFollows(runs[r], rows[r], r)
  }

  // ---------------------------------------------------------------------------------------------
  // Process rows

  /** A member's process row: same run and pid, and one EndProcess call exactly when it ended. */
  predicate ProcessRowFollows(img: Image, row: ProcessRow) {
    && img.run == Some(row.run)
    && row.pid == img.proc.token.pid
    && row.path == img.proc.path
    && row.args == img.args
    && row.ends == (if img.end.Some? then 1 else 0)
    && row.endedAt == (if img.end.Some? then NullTime(Some(img.end.value.at)) else None)
    && row.endReason == (if img.end.Some? then Some(img.end.value.reason) else None)
    && row.exitStatus == (if img.end.Some? then img.end.value.exitStatus else None)
  }

  predicate MemberRows(arena: seq<Image>, rows: seq<ProcessRow>) {
    forall i | 0 <= i < |arena| :: arena[i].run.Some? ==> arena[i].rowID < |rows| && ProcessRowFollows(arena[i], rows[arena[i].rowID])
  }

  /** Members and process rows correspond one to one. */
  predicate Owns(arena: seq<Image>, i: nat, p: nat) {
    i < |arena| && arena[i].run.Some? && arena[i].rowID == p
  }

  ghost predicate HasOwner(arena: seq<Image>, p: nat) {
    exists i: nat :: Owns(arena, i, p)
  }

  ghost predicate RowsOwned(arena: seq<Image>, rows: nat) {
    && (forall p | 0 <= p < rows :: HasOwner(arena, p))
    && (forall i: nat, j: nat, p: nat :: Owns(arena, i, p) && Owns(arena, j, p) ==> i == j)
  }

  /** A process row's parent and exec-prev ids name strictly earlier rows of the same run. */
  predicate EarlierRow(rows: seq<ProcessRow>, p: nat, q: Option<nat>)
    requires p < |rows|
  {
    q.Some? ==> q.value < p && rows[q.value].run == rows[p].run
  }

  predicate RowForest(rows: seq<ProcessRow>) {
    forall p | 0 <= p < |rows| :: EarlierRow(rows, p, rows[p].parent) && EarlierRow(rows, p, rows[p].execPrev)
  }

  /** A row's parent and exec-prev ids are the row ids of its image's parent and prev, and those
    images belong to the same run. */
  predicate EdgeRow(arena: seq<Image>, i: nat, edge: Option<nat>, q: Option<nat>)
    requires i < |arena|
  {
    q.Some? ==> edge.Some? && edge.value < i && arena[edge.value].run == arena[i].run && arena[edge.value].rowID == q.value
  }

  predicate EdgeRows(arena: seq<Image>, rows: seq<ProcessRow>) {
    forall i | 0 <= i < |arena| && arena[i].run.Some? && arena[i].rowID < |rows| ::
      && EdgeRow(arena, i, arena[i].parent, rows[arena[i].rowID].parent)
      && EdgeRow(arena, i, arena[i].prev, rows[arena[i].rowID].execPrev)
  }

  /** Each denial row names a process row of its run and pid. */
  predicate DenialRowsPlaced(denials: seq<DenialRow>, rows: seq<ProcessRow>) {
    forall d | 0 <= d < |denials| ::
      && denials[d].process < |rows|
      && rows[denials[d].process].run == denials[d].run
      && rows[denials[d].process].pid == denials[d].pid
  }

  ghost predicate GraphInv(g: Graph) {
    && GraphOk(g)
    && LiveSets(g.arena, g.runs)
    && LastEnds(g.arena, g.runs)
    && RunRows(g.runs, g.db.runs)
    && MemberRows(g.arena, g.db.processes)
    && RowsOwned(g.arena, |g.db.processes|)
    && RowForest(g.db.processes)
    && EdgeRows(g.arena, g.db.processes)
    && DenialRowsPlaced(g.db.denials, g.db.processes)
  }

  // ---------------------------------------------------------------------------------------------
  // Every graph operation keeps the invariant

  lemma RegisterKeeps(g: Graph, img: Image)
    requires GraphInv(g) && FreshImage(img, |g.arena|)
    ensures GraphInv(g.(arena := g.arena + [img]))
  {
    var arena := g.arena + [img];
    forall r | 0 <= r < |g.runs|
      ensures IsLiveSet(arena, r, g.runs[r].live) && IsLastEnd(arena, r, g.runs[r].lastEnd)
    {
      assert IsLiveSet(g.arena, r, g.runs[r].live);
      assert IsLastEnd(g.arena, r, g.runs[r].lastEnd);
    }
    forall p | 0 <= p < |g.db.processes| ensures HasOwner(arena, p) {
      assert HasOwner(g.arena, p);
      var i: nat :| Owns(g.arena, i, p);
      assert Owns(arena, i, p);
    }
    forall i: nat, j: nat, p: nat | Owns(arena, i, p) && Owns(arena, j, p) ensures i == j {
      assert Owns(g.arena, i, p) && Owns(g.arena, j, p);
    }
  }

  lemma AddRunKeeps(g: Graph, row: RunRow, hasSession: bool)
    requires GraphInv(g)
    requires RunRowFollows(Run(|g.runs|, row.kind, {}, ZERO_TIME, hasSession, false), row, |g.runs|)
    ensures GraphInv(AddRun(g, row, hasSession))
  {
    var g' := AddRun(g, row, hasSession);
    forall r | 0 <= r < |g'.runs|
      ensures IsLiveSet(g'.arena, r, g'.runs[r].live) && IsLastEnd(g'.arena, r, g'.runs[r].lastEnd)
    {
      if r < |g.runs| {
        assert IsLiveSet(g.arena, r, g.runs[r].live);
        assert IsLastEnd(g.arena, r, g.runs[r].lastEnd);
      }
    }
  }

  lemma WithSessionsKeeps(g: Graph, m: Match, t: Time)
    requires GraphInv(g)
    ensures GraphInv(WithSessions(g, m, t))
  {
  }

  lemma AttachSessionKeeps(e: Env, g: Graph, r: nat, d: Denial)
    requires GraphInv(g) && r < |g.runs|
    ensures GraphInv(AttachSession(e, g, r, d))
  {
    var g' := AttachSession(e, g, r, d);
    forall k | 0 <= k < |g'.runs|
      ensures IsLiveSet(g'.arena, k, g'.runs[k].live) && IsLastEnd(g'.arena, k, g'.runs[k].lastEnd)
    {
      assert IsLiveSet(g.arena, k, g.runs[k].live);
      assert IsLastEnd(g.arena, k, g.runs[k].lastEnd);
    }
  }

  lemma MaybeEndRunKeeps(g: Graph, r: nat)
    requires GraphInv(g) && r < |g.runs|
    ensures GraphInv(MaybeEndRun(g, r))
  {
    var g' := MaybeEndRun(g, r);
    forall k | 0 <= k < |g'.runs|
      ensures IsLiveSet(g'.arena, k, g'.runs[k].live) && IsLastEnd(g'.arena, k, g'.runs[k].lastEnd)
    {
      assert IsLiveSet(g.arena, k, g.runs[k].live);
      assert IsLastEnd(g.arena, k, g.runs[k].lastEnd);
    }
  }

  lemma JoinKeepsRuns(g: Graph, i: nat, r: nat)
    requires GraphInv(g) && i < |g.arena| && r < |g.runs|
    ensures LiveSets(Join(g, i, r).arena, Join(g, i, r).runs)
    ensures LastEnds(Join(g, i, r).arena, Join(g, i, r).runs)
    ensures RunRows(Join(g, i, r).runs, Join(g, i, r).db.runs)
  {
    var g' := Join(g, i, r);
    forall k | 0 <= k < |g'.runs|
      ensures IsLiveSet(g'.arena, k, g'.runs[k].live) && IsLastEnd(g'.arena, k, g'.runs[k].lastEnd)
    {
      assert IsLastEnd(g.arena, k, g.runs[k].lastEnd);
      if g.arena[i].run.None? {
        JoinLive(g, i, r, k);
        JoinLastEnd(g, i, r, k);
      } else {
        assert IsLiveSet(g.arena, k, g.runs[k].live);
      }
    }
  }

  lemma JoinLive(g: Graph, i: nat, r: nat, k: nat)
    requires GraphOk(g) && i < |g.arena| && r < |g.runs| && k < |g.runs| && g.arena[i].run.None?
    requires LiveSets(g.arena, g.runs)
    ensures IsLiveSet(Join(g, i, r).arena, k, Join(g, i, r).runs[k].live)
  {
    assert IsLiveSet(g.arena, k, g.runs[k].live);
  }

  lemma JoinLastEnd(g: Graph, i: nat, r: nat, k: nat)
    requires GraphOk(g) && i < |g.arena| && r < |g.runs| && k < |g.runs| && g.arena[i].run.None?
    requires IsLastEnd(g.arena, k, g.runs[k].lastEnd)
    ensures IsLastEnd(Join(g, i, r).arena, k, Join(g, i, r).runs[k].lastEnd)
  {
    var g' := Join(g, i, r);
    var t := g.runs[k].lastEnd;
    if t != ZERO_TIME {
      var j :| 0 <= j < |g.arena| && EndedIn(g.arena[j], k) && g.arena[j].end.value.at == t;
      assert EndedIn(g'.arena[j], k);
    }
    if k == r && g.arena[i].end.Some? {
      assert EndedIn(g'.arena[i], r);
    }
  }

  lemma JoinKeepsRows(g: Graph, i: nat, r: nat)
    requires GraphInv(g) && i < |g.arena| && r < |g.runs|
    ensures MemberRows(Join(g, i, r).arena, Join(g, i, r).db.processes)
    ensures RowsOwned(Join(g, i, r).arena, |Join(g, i, r).db.processes|)
    ensures RowForest(Join(g, i, r).db.processes)
    ensures DenialRowsPlaced(g.db.denials, Join(g, i, r).db.processes)
  {
    var g' := Join(g, i, r);
    if g.arena[i].run.None? {
      forall p | 0 <= p < |g'.db.processes| ensures HasOwner(g'.arena, p) {
        JoinKeepsOwner(g, i, r, p);
      }
      forall j: nat, k: nat, p: nat | Owns(g'.arena, j, p) && Owns(g'.arena, k, p) ensures j == k {
        if j != i && k != i {
          assert Owns(g.arena, j, p) && Owns(g.arena, k, p);
        }
      }
    }
  }

  lemma JoinKeepsOwner(g: Graph, i: nat, r: nat, p: nat)
    requires GraphInv(g) && i < |g.arena| && r < |g.runs| && g.arena[i].run.None? && p <= |g.db.processes|
    ensures HasOwner(Join(g, i, r).arena, p)
  {
    if p < |g.db.processes| {
      assert HasOwner(g.arena, p);
      var j: nat :| Owns(g.arena, j, p);
      assert Owns(Join(g, i, r).arena, j, p);
    } else {
      assert Owns(Join(g, i, r).arena, i, p);
    }
  }

  lemma JoinKeepsEdges(g: Graph, i: nat, r: nat)
    requires GraphInv(g) && i < |g.arena| && r < |g.runs|
    ensures EdgeRows(Join(g, i, r).arena, Join(g, i, r).db.processes)
  {
  }

  lemma JoinKeeps(g: Graph, i: nat, r: nat)
    requires GraphInv(g) && i < |g.arena| && r < |g.runs|
    ensures GraphInv(Join(g, i, r))
  {
    JoinKeepsRuns(g, i, r);
    JoinKeepsRows(g, i, r);
    JoinKeepsEdges(g, i, r);
  }

  lemma EndMemberKeepsRuns(g: Graph, i: nat, end: End)
    requires GraphInv(g) && i < |g.arena| && g.arena[i].end.None?
    ensures LiveSets(EndMember(g, i, end).arena, EndMember(g, i, end).runs)
    ensures LastEnds(EndMember(g, i, end).arena, EndMember(g, i, end).runs)
    ensures RunRows(EndMember(g, i, end).runs, EndMember(g, i, end).db.runs)
  {
    var g' := EndMember(g, i, end);
    forall k | 0 <= k < |g'.runs|
      ensures IsLiveSet(g'.arena, k, g'.runs[k].live) && IsLastEnd(g'.arena, k, g'.runs[k].lastEnd)
    {
      assert IsLastEnd(g.arena, k, g.runs[k].lastEnd);
      EndMemberLive(g, i, end, k);
      EndMemberLastEnd(g, i, end, k);
    }
    EndMemberRunRows(g, i, end);
  }

  lemma EndMemberLive(g: Graph, i: nat, end: End, k: nat)
    requires GraphOk(g) && i < |g.arena| && k < |g.runs| && LiveSets(g.arena, g.runs)
    ensures IsLiveSet(EndMember(g, i, end).arena, k, EndMember(g, i, end).runs[k].live)
  {
    assert IsLiveSet(g.arena, k, g.runs[k].live);
  }

  lemma EndMemberRunRows(g: Graph, i: nat, end: End)
    requires GraphOk(g) && i < |g.arena| && RunRows(g.runs, g.db.runs)
    ensures RunRows(EndMember(g, i, end).runs, EndMember(g, i, end).db.runs)
  {
  }

  lemma EndMemberLastEnd(g: Graph, i: nat, end: End, k: nat)
    requires GraphOk(g) && i < |g.arena| && k < |g.runs| && g.arena[i].end.None?
    requires IsLastEnd(g.arena, k, g.runs[k].lastEnd)
    ensures IsLastEnd(EndMember(g, i, end).arena, k, EndMember(g, i, end).runs[k].lastEnd)
  {
    var g' := EndMember(g, i, end);
    var t := g.runs[k].lastEnd;
    if t != ZERO_TIME {
      var j :| 0 <= j < |g.arena| && EndedIn(g.arena[j], k) && g.arena[j].end.value.at == t;
      assert EndedIn(g'.arena[j], k);
    }
    if g.arena[i].run == Some(k) {
      assert EndedIn(g'.arena[i], k);
    }
  }

  lemma EndMemberKeepsRows(g: Graph, i: nat, end: End)
    requires GraphInv(g) && i < |g.arena| && g.arena[i].end.None?
    ensures RowsOwned(EndMember(g, i, end).arena, |EndMember(g, i, end).db.processes|)
    ensures RowForest(EndMember(g, i, end).db.processes)
    ensures DenialRowsPlaced(g.db.denials, EndMember(g, i, end).db.processes)
  {
    var g' := EndMember(g, i, end);
    assert forall j: nat, p: nat :: Owns(g'.arena, j, p) <==> Owns(g.arena, j, p);
    forall p | 0 <= p < |g'.db.processes| ensures HasOwner(g'.arena, p) {
      assert HasOwner(g.arena, p);
      var j: nat :| Owns(g.arena, j, p);
      assert Owns(g'.arena, j, p);
    }
  }

  lemma EndMemberKeepsMembers(g: Graph, i: nat, end: End)
    requires GraphInv(g) && i < |g.arena| && g.arena[i].end.None?
    ensures MemberRows(EndMember(g, i, end).arena, EndMember(g, i, end).db.processes)
  {
    var g' := EndMember(g, i, end);
    forall j | 0 <= j < |g'.arena| && g'.arena[j].run.Some?
      ensures g'.arena[j].rowID < |g'.db.processes| && ProcessRowFollows(g'.arena[j], g'.db.processes[g'.arena[j].rowID])
    {
      assert Owns(g.arena, j, g.arena[j].rowID);
      if g.arena[i].run.Some? {
        assert Owns(g.arena, i, g.arena[i].rowID);
      }
    }
  }

  lemma EndMemberKeepsEdges(g: Graph, i: nat, end: End)
    requires GraphInv(g) && i < |g.arena| && g.arena[i].end.None?
    ensures EdgeRows(EndMember(g, i, end).arena, EndMember(g, i, end).db.processes)
  {
  }

  lemma EndImageKeeps(g: Graph, i: nat, end: End)
    requires GraphInv(g) && i < |g.arena|
    ensures GraphInv(EndImage(g, i, end))
  {
    if g.arena[i].end.None? {
      EndMemberKeepsRuns(g, i, end);
      EndMemberKeepsRows(g, i, end);
      EndMemberKeepsMembers(g, i, end);
      EndMemberKeepsEdges(g, i, end);
      if g.arena[i].run.Some? {
        MaybeEndRunKeeps(EndMember(g, i, end), g.arena[i].run.value);
      }
    }
  }

  lemma WithDenialKeeps(g: Graph, i: nat, row: DenialRow, known: bool)
    requires GraphInv(g) && i < |g.arena| && g.arena[i].run == Some(row.run)
    requires row.process == g.arena[i].rowID && row.pid == g.arena[i].proc.token.pid
    ensures GraphInv(WithDenial(g, i, row, known))
  {
    var g' := WithDenial(g, i, row, known);
    WithDenialKeepsRuns(g, i, row, known);
    assert forall j: nat, p: nat :: Owns(g'.arena, j, p) <==> Owns(g.arena, j, p);
    forall p | 0 <= p < |g'.db.processes| ensures HasOwner(g'.arena, p) {
      assert HasOwner(g.arena, p);
      var j: nat :| Owns(g.arena, j, p);
      assert Owns(g'.arena, j, p);
    }
  }

  lemma WithDenialKeepsRuns(g: Graph, i: nat, row: DenialRow, known: bool)
    requires GraphInv(g) && i < |g.arena|
    ensures LiveSets(WithDenial(g, i, row, known).arena, g.runs) && LastEnds(WithDenial(g, i, row, known).arena, g.runs)
  {
    var g' := WithDenial(g, i, row, known);
    forall k | 0 <= k < |g'.runs|
      ensures IsLiveSet(g'.arena, k, g'.runs[k].live) && IsLastEnd(g'.arena, k, g'.runs[k].lastEnd)
    {
      assert IsLiveSet(g.arena, k, g.runs[k].live);
      assert IsLastEnd(g.arena, k, g.runs[k].lastEnd);
      assert forall j | 0 <= j < |g.arena| :: EndedIn(g'.arena[j], k) == EndedIn(g.arena[j], k);
    }
  }

  lemma CountsKeep(g: Graph, id: nat, n: int)
    requires GraphInv(g)
    ensures id < |g.db.denials| ==> GraphInv(AddDenialCount(g, id, n))
    ensures id < |g.db.orphans| ==> GraphInv(AddOrphanCount(g, id, n))
  {
  }

  lemma OrphanRowKeeps(g: Graph, row: OrphanRow)
    requires GraphInv(g)
    ensures GraphInv(g.(db := g.db.(orphans := g.db.orphans + [row])))
  {
  }

  // ---------------------------------------------------------------------------------------------
  // Compound operations

  lemma {:induction false} JoinAllKeeps(g: Graph, path: seq<nat>, r: nat)
    requires GraphInv(g) && InRange(path, |g.arena|) && r < |g.runs|
    ensures GraphInv(JoinAll(g, path, r))
    decreases |path|
  {
    if path != [] {
      var rest := path[..|path| - 1];
      JoinAllKeeps(g, rest, r);
      JoinKeeps(JoinAll(g, rest, r), path[|path| - 1], r);
    }
  }

  lemma JoinCandidateKeeps(g: Graph, i: nat)
    requires GraphInv(g) && i < |g.arena| && Eligible(g.arena, i)
    ensures GraphInv(JoinCandidate(g, i))
  {
    var root := g.arena[RootOf(g.arena, i)];
    if root.run.None? {
      AddRunKeeps(g, SandboxInitRow(root), false);
    }
    var g1 := if root.run.Some? then g else AddRun(g, SandboxInitRow(root), false);
    var r := if root.run.Some? then root.run.value else |g.runs|;
    JoinAllKeeps(g1, PathTo(g.arena, i), r);
    MaybeEndRunKeeps(JoinAll(g1, PathTo(g.arena, i), r), r);
  }

  lemma StartSandboxExecRunKeeps(e: Env, g: Graph, ev: Event, parent: Option<nat>)
    requires GraphInv(g) && (parent.Some? ==> parent.value < |g.runs|)
    ensures GraphInv(StartSandboxExecRun(e, g, ev, parent))
  {
    var row := SandboxExecRow(e, ev, parent);
    match e.detectRun(row.profile.text, ev.args, row.env) {
      case None =>
        AddRunKeeps(g, row, false);
      case Some(m) =>
        var sid := FindSession(g.db.sessions, m.kind, m.key);
        WithSessionsKeeps(g, m, ev.time);
        AddRunKeeps(WithSessions(g, m, ev.time), row.(session := Some(sid), tag := m.raw, tagCommand := m.detail), true);
    }
  }

  lemma FinishExecKeeps(e: Env, g: Graph, ev: Event, i: nat, actor: nat)
    requires GraphInv(g) && i < |g.arena| && actor < |g.arena|
    ensures GraphInv(FinishExec(e, g, ev, i, actor))
  {
    var run := g.arena[actor].run;
    if ev.target.path == SANDBOX_EXEC_PATH {
      StartSandboxExecRunKeeps(e, g, ev, run);
      JoinKeeps(StartSandboxExecRun(e, g, ev, run), i, |g.runs|);
    } else if run.Some? {
      JoinKeeps(g, i, run.value);
    }
    EndImageKeeps(JoinExeced(e, g, ev, i, run), actor, End(ev.time, ByExec, None));
  }
}
