/** After Shutdown everything is decided and closed, each exactly once. */
module Shutdown {
  import opened Events
  import opened Tables
  import opened Model
  import opened Handlers
  import opened Invariant
  import opened Behaviour
  import opened Traversal
  import opened Conservation
  import GI = GraphInvariants
  import BI = BufferInvariants

  /** Every run got exactly one EndRun call and every process row exactly one EndProcess call. */
  predicate ClosedOnce(db: Tables) {
    && (forall r | 0 <= r < |db.runs| :: db.runs[r].ends == 1 && db.runs[r].status != Running)
    && (forall p | 0 <= p < |db.processes| :: db.processes[p].ends == 1)
  }

  lemma CloseRunsCloses(g: Graph)
    requires GI.GraphInv(g)
    ensures ClosedOnce(CloseRuns(g).db)
    ensures forall r | 0 <= r < |g.runs| :: CloseRuns(g).runs[r].live == {} && CloseRuns(g).runs[r].ended
    ensures forall r | 0 <= r < |g.runs| ::
      CloseRuns(g).db.runs[r] == if g.runs[r].ended then g.db.runs[r] else g.db.runs[r].(endedAt := None, status := WatchStopped, ends := 1)
  {
    var db := CloseRuns(g).db;
    forall p | 0 <= p < |db.processes| ensures db.processes[p].ends == 1 {
      LiveRowsRun(g, p);
    }
  }

  /** The process rows that shutdown ends are exactly those not ended before. */
  lemma LiveRowsRun(g: Graph, p: nat)
    requires GI.GraphInv(g) && p < |g.db.processes|
    ensures g.db.processes[p].ends == if p in LiveRows(g) then 0 else 1
  {
    assert GI.HasOwner(g.arena, p);
    var i: nat :| GI.Owns(g.arena, i, p);
    var r := g.arena[i].run.value;
    assert GI.IsLiveSet(g.arena, r, g.runs[r].live);
    if p in LiveRows(g) {
      var r', j :| 0 <= r' < |g.runs| && j in g.runs[r'].live && j < |g.arena| && g.arena[j].rowID == p;
      assert GI.IsLiveSet(g.arena, r', g.runs[r'].live);
      assert GI.Owns(g.arena, j, p);
    }
  }

  lemma {:induction false} NoneBuffered(pendings: seq<Pending>, sel: DenialKey -> bool)
    requires forall p | 0 <= p < |pendings| :: pendings[p].fate != Buffered
    ensures SumFate(pendings, Buffered, sel) == 0
    decreases |pendings|
  {
    if pendings != [] {
      NoneBuffered(pendings[..|pendings| - 1], sel);
    }
  }

  lemma NothingWaits(b: Buffer)
    requires BI.BufferInv(b, b.pendingByPID) && b.pendingByPID == map[]
    ensures forall p | 0 <= p < |b.pendings| :: b.pendings[p].fate != Buffered
  {
    forall p | 0 <= p < |b.pendings| ensures b.pendings[p].fate != Buffered {
      assert b.pendings[p].fate == Buffered ==> BI.Waiting(b, b.pendingByPID, p);
    }
  }

  lemma AllFinalized(e: Env, s: State, order: seq<int>, n: int, sel: DenialKey -> bool)
    requires Inv(s) && IsOrder(order, s.buffer.pendingByPID.Keys) && TotalIs(n, sel)(s.buffer.pendings, s.graph.db)
    ensures
      var s1 := FinalizePids(e, s, order);
      && Inv(s1) && s1.buffer.pendingByPID == map[]
      && (forall p | 0 <= p < |s1.buffer.pendings| :: s1.buffer.pendings[p].fate != Buffered)
      && InRows(s1.graph.db, sel) + SumFate(s1.buffer.pendings, Dropped, sel) == n
  {
    TotalSurvives(n, sel);
    FinalizePidsKeeps(e, s, order, TotalIs(n, sel));
    var s1 := FinalizePids(e, s, order);
    assert forall pid :: pid !in s1.buffer.pendingByPID;
    NothingWaits(s1.buffer);
    NoneBuffered(s1.buffer.pendings, sel);
  }

  /** After any run and then Shutdown, visiting the pids in any order: nothing is buffered, every
    run and every process row is ended exactly once, and all counts are in denial rows, orphan rows
    or dropped. */
  lemma ShutdownCompletes(e: Env, steps: seq<Step>, order: seq<int>, sel: DenialKey -> bool)
    requires Feasible(e, steps) && IsOrder(order, After(e, steps).buffer.pendingByPID.Keys)
    ensures
      var s := ShutDown(e, After(e, steps), order);
      && s.buffer.pendingByPID == map[]
      && (forall p | 0 <= p < |s.buffer.pendings| :: s.buffer.pendings[p].fate != Buffered)
      && ClosedOnce(s.graph.db)
      && InRows(s.graph.db, sel) + SumFate(s.buffer.pendings, Dropped, sel) == Handled(steps, sel)
  {
    InvHolds(e, steps);
    CountsAreConserved(e, steps, sel);
    AllFinalized(e, After(e, steps), order, Handled(steps, sel), sel);
    CloseRunsCloses(FinalizePids(e, After(e, steps), order).graph);
  }
}
