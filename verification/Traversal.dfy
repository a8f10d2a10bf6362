/** What survives every decision survives a whole visit of the buffer, in any order of pids. */
module Traversal {
  import opened Events
  import opened Tables
  import opened Model
  import opened Handlers
  import opened Invariant
  import BI = BufferInvariants

  predicate Undecided(s: State, p: nat) {
    p < |s.buffer.pendings| && s.buffer.pendings[p].fate == Buffered
  }

  /** P, a property of the denials and the rows, survives the decision of any undecided denial. */
  ghost predicate Survives(P: (seq<Pending>, Tables) -> bool) {
    forall s: State, s': State, p: nat {:trigger BI.Decides(s, s', p)} ::
      Undecided(s, p) && BI.Decides(s, s', p) && P(s.buffer.pendings, s.graph.db) ==> P(s'.buffer.pendings, s'.graph.db)
  }

  lemma TickOneDecides(e: Env, s: State, p: nat, now: Time)
    requires WF(s) && p < |s.buffer.pendings|
    ensures if Judge(e, s, p, now).Keep? then TickOne(e, s, p, now) == s else BI.Decides(s, TickOne(e, s, p, now), p)
  {
    match Judge(e, s, p, now) {
      case FinalizeFully => BI.FinalizeDecides(e, s, p, true);
      case FinalizeLagging => BI.FinalizeDecides(e, s, p, false);
      case AttributeTo(i) => BI.AttributeDecides(e, s, p, i);
      case Keep =>
    }
  }

  /** The denial a list visit comes to next has not been decided yet. */
  lemma NextIsUndecided(b: Buffer, lists: map<int, seq<nat>>, pid: int, kept: seq<nat>, p: nat, rest: seq<nat>)
    requires BI.BufferInv(b, lists[pid := kept + ([p] + rest)])
    ensures p < |b.pendings| && b.pendings[p].fate == Buffered && b.pendings[p].d.pid == pid
  {
    var list := kept + ([p] + rest);
    assert BI.WaitingList(b, pid, lists[pid := list][pid]);
    assert list[|kept|] == p;
  }

  /** After a list visit the next denial is undecided, and its tick decides or keeps it. */
  lemma LastVisit(e: Env, s: State, list: seq<nat>, p: nat, rest: seq<nat>, now: Time, lists: map<int, seq<nat>>, pid: int)
    requires Core(s) && InRange(list, |s.buffer.pendings|) && p < |s.buffer.pendings|
    requires BI.BufferInv(s.buffer, lists[pid := list + ([p] + rest)])
    ensures
      var s1 := TickList(e, s, list, now).0;
      && Core(s1) && Undecided(s1, p)
      && if Judge(e, s1, p, now).Keep? then TickOne(e, s1, p, now) == s1 else BI.Decides(s1, TickOne(e, s1, p, now), p)
  {
    TickListKeeps(e, s, list, [p] + rest, now, lists, pid);
    var (s1, kept) := TickList(e, s, list, now);
    NextIsUndecided(s1.buffer, lists, pid, kept, p, rest);
    TickOneDecides(e, s1, p, now);
  }

  lemma {:induction false} TickListPreserves(
      e: Env, s: State, list: seq<nat>, rest: seq<nat>, now: Time, lists: map<int, seq<nat>>, pid: int, P: (seq<Pending>, Tables) -> bool)
    requires Core(s) && InRange(list, |s.buffer.pendings|)
    requires BI.BufferInv(s.buffer, lists[pid := list + rest])
    requires Survives(P) && P(s.buffer.pendings, s.graph.db)
    ensures P(TickList(e, s, list, now).0.buffer.pendings, TickList(e, s, list, now).0.graph.db)
    decreases |list|
  {
    if list != [] {
      var init, p := list[..|list| - 1], list[|list| - 1];
      SplitLast(list, rest);
      TickListPreserves(e, s, init, [p] + rest, now, lists, pid, P);
      LastPreserves(e, s, init, p, rest, now, lists, pid, P);
    }
  }

  lemma LastPreserves(
      e: Env, s: State, list: seq<nat>, p: nat, rest: seq<nat>, now: Time, lists: map<int, seq<nat>>, pid: int, P: (seq<Pending>, Tables) -> bool)
    requires Core(s) && InRange(list, |s.buffer.pendings|) && p < |s.buffer.pendings|
    requires BI.BufferInv(s.buffer, lists[pid := list + ([p] + rest)])
    requires Survives(P) && P(TickList(e, s, list, now).0.buffer.pendings, TickList(e, s, list, now).0.graph.db)
    ensures InRange(list + [p], |s.buffer.pendings|)
    ensures P(TickList(e, s, list + [p], now).0.buffer.pendings, TickList(e, s, list + [p], now).0.graph.db)
  {
    LastVisit(e, s, list, p, rest, now, lists, pid);
    TickListSnoc(e, s, list, p, now);
  }

  lemma TickPidsSnoc(e: Env, s: State, order: seq<int>, pid: int, now: Time)
    requires WF(s)
    ensures
      var s1 := TickPids(e, s, order, now);
      var (s2, kept) := TickList(e, s1, ListOf(s1.buffer.pendingByPID, pid), now);
      var s3 := TickPids(e, s, order + [pid], now);
      && s3 == s2.(buffer := SetPending(s2.buffer, pid, kept))
      && s1.buffer.pendingByPID.Keys <= s3.buffer.pendingByPID.Keys + {pid}
      && s3.buffer.pendingByPID.Keys <= s1.buffer.pendingByPID.Keys
  {
    assert (order + [pid])[..|order|] == order;
  }

  lemma TickPidPreserves(e: Env, s: State, pid: int, now: Time, P: (seq<Pending>, Tables) -> bool)
    requires Inv(s) && Survives(P) && P(s.buffer.pendings, s.graph.db)
    ensures
      var s' := TickList(e, s, ListOf(s.buffer.pendingByPID, pid), now).0;
      P(s'.buffer.pendings, s'.graph.db)
  {
    var list := ListOf(s.buffer.pendingByPID, pid);
    assert list + [] == list;
    WithEmptyList(s.buffer, pid);
    TickListPreserves(e, s, list, [], now, s.buffer.pendingByPID, pid, P);
  }

  lemma {:induction false} TickPidsPreserves(e: Env, s: State, order: seq<int>, now: Time, P: (seq<Pending>, Tables) -> bool)
    requires Inv(s) && Survives(P) && P(s.buffer.pendings, s.graph.db)
    ensures P(TickPids(e, s, order, now).buffer.pendings, TickPids(e, s, order, now).graph.db)
    decreases |order|
  {
    if order != [] {
      var s1 := TickPids(e, s, order[..|order| - 1], now);
      TickPidsPreserves(e, s, order[..|order| - 1], now, P);
      TickPidsInv(e, s, order[..|order| - 1], now);
      TickPidPreserves(e, s1, order[|order| - 1], now, P);
    }
  }

  ghost predicate Holds(Q: (Time, Index, seq<Pending>, Graph) -> bool, s: State) {
    Q(s.watermark, s.index, s.buffer.pendings, s.graph)
  }

  /** Q, a property of the watermark, the index, the denials and the graph, survives the tick of any one
    undecided denial. */
  ghost predicate Stable(e: Env, now: Time, Q: (Time, Index, seq<Pending>, Graph) -> bool) {
    forall s: State, p: nat {:trigger TickOne(e, s, p, now)} ::
      Core(s) && Undecided(s, p) && Holds(Q, s) ==> Holds(Q, TickOne(e, s, p, now))
  }

  lemma {:induction false} TickListStable(
      e: Env, s: State, list: seq<nat>, rest: seq<nat>, now: Time, lists: map<int, seq<nat>>, pid: int, Q: (Time, Index, seq<Pending>, Graph) -> bool)
    requires Core(s) && InRange(list, |s.buffer.pendings|)
    requires BI.BufferInv(s.buffer, lists[pid := list + rest])
    requires Stable(e, now, Q) && Holds(Q, s)
    ensures Holds(Q, TickList(e, s, list, now).0)
    decreases |list|
  {
    if list != [] {
      var init, p := list[..|list| - 1], list[|list| - 1];
      SplitLast(list, rest);
      TickListStable(e, s, init, [p] + rest, now, lists, pid, Q);
      LastVisit(e, s, init, p, rest, now, lists, pid);
      TickListSnoc(e, s, init, p, now);
    }
  }

  lemma TickPidStable(e: Env, s: State, pid: int, now: Time, Q: (Time, Index, seq<Pending>, Graph) -> bool)
    requires Inv(s) && Stable(e, now, Q) && Holds(Q, s)
    ensures Holds(Q, TickList(e, s, ListOf(s.buffer.pendingByPID, pid), now).0)
  {
    var list := ListOf(s.buffer.pendingByPID, pid);
    assert list + [] == list;
    WithEmptyList(s.buffer, pid);
    TickListStable(e, s, list, [], now, s.buffer.pendingByPID, pid, Q);
  }

  lemma {:induction false} TickStable(e: Env, s: State, order: seq<int>, now: Time, Q: (Time, Index, seq<Pending>, Graph) -> bool)
    requires Inv(s) && Stable(e, now, Q) && Holds(Q, s)
    ensures Holds(Q, TickPids(e, s, order, now))
    decreases |order|
  {
    if order != [] {
      var s1 := TickPids(e, s, order[..|order| - 1], now);
      TickStable(e, s, order[..|order| - 1], now, Q);
      TickPidsInv(e, s, order[..|order| - 1], now);
      TickPidStable(e, s1, order[|order| - 1], now, Q);
    }
  }

  // ---------------------------------------------------------------------------------------------
  // The same for the visits of Shutdown, which keep nothing buffered.

  lemma FinalizeListSnoc(e: Env, s: State, list: seq<nat>, p: nat)
    requires WF(s) && InRange(list, |s.buffer.pendings|) && p < |s.buffer.pendings| && InRange(list + [p], |s.buffer.pendings|)
    ensures FinalizeList(e, s, list + [p]) == Finalize(e, FinalizeList(e, s, list), p, true)
  {
    assert (list + [p])[..|list|] == list;
  }

  lemma {:induction false} FinalizeListKeeps(e: Env, s: State, list: seq<nat>, rest: seq<nat>, lists: map<int, seq<nat>>, pid: int)
    requires Core(s) && InRange(list, |s.buffer.pendings|)
    requires BI.BufferInv(s.buffer, lists[pid := list + rest])
    ensures Core(FinalizeList(e, s, list)) && BI.BufferInv(FinalizeList(e, s, list).buffer, lists[pid := rest])
    decreases |list|
  {
    if list == [] {
      assert [] + rest == rest;
    } else {
      var init, p := list[..|list| - 1], list[|list| - 1];
      SplitLast(list, rest);
      FinalizeListKeeps(e, s, init, [p] + rest, lists, pid);
      FinalizeNextKeeps(e, FinalizeList(e, s, init), p, rest, lists, pid);
      FinalizeListSnoc(e, s, init, p);
    }
  }

  lemma FinalizeNextKeeps(e: Env, s: State, p: nat, rest: seq<nat>, lists: map<int, seq<nat>>, pid: int)
    requires Core(s) && p < |s.buffer.pendings| && BI.BufferInv(s.buffer, lists[pid := [p] + rest])
    ensures Core(Finalize(e, s, p, true)) && BI.BufferInv(Finalize(e, s, p, true).buffer, lists[pid := rest])
    ensures Undecided(s, p) && BI.Decides(s, Finalize(e, s, p, true), p)
  {
    assert [] + ([p] + rest) == [p] + rest && [] + [p] + rest == [p] + rest && [] + rest == rest;
    NextIsUndecided(s.buffer, lists, pid, [], p, rest);
    FinalizeCore(e, s, p, true);
    BI.FinalizeDecides(e, s, p, true);
    BI.SettleKeeps(s.buffer, lists, pid, [], p, rest, Finalize(e, s, p, true).buffer.pendings[p].fate);
  }

  lemma {:induction false} FinalizeListPreserves(
      e: Env, s: State, list: seq<nat>, rest: seq<nat>, lists: map<int, seq<nat>>, pid: int, P: (seq<Pending>, Tables) -> bool)
    requires Core(s) && InRange(list, |s.buffer.pendings|)
    requires BI.BufferInv(s.buffer, lists[pid := list + rest])
    requires Survives(P) && P(s.buffer.pendings, s.graph.db)
    ensures P(FinalizeList(e, s, list).buffer.pendings, FinalizeList(e, s, list).graph.db)
    decreases |list|
  {
    if list != [] {
      var init, p := list[..|list| - 1], list[|list| - 1];
      SplitLast(list, rest);
      FinalizeListPreserves(e, s, init, [p] + rest, lists, pid, P);
      FinalizeListKeeps(e, s, init, [p] + rest, lists, pid);
      FinalizeNextKeeps(e, FinalizeList(e, s, init), p, rest, lists, pid);
      FinalizeListSnoc(e, s, init, p);
    }
  }

  lemma FinalizePidKeeps(e: Env, s: State, pid: int, P: (seq<Pending>, Tables) -> bool)
    requires Inv(s) && Survives(P) && P(s.buffer.pendings, s.graph.db)
    ensures
      var s1 := FinalizeList(e, s, ListOf(s.buffer.pendingByPID, pid));
      var s2 := s1.(buffer := s1.buffer.(pendingByPID := s1.buffer.pendingByPID - {pid}));
      Inv(s2) && P(s2.buffer.pendings, s2.graph.db) && s1.buffer.pendingByPID == s.buffer.pendingByPID
  {
    var list := ListOf(s.buffer.pendingByPID, pid);
    assert list + [] == list;
    WithEmptyList(s.buffer, pid);
    FinalizeListKeeps(e, s, list, [], s.buffer.pendingByPID, pid);
    FinalizeListPreserves(e, s, list, [], s.buffer.pendingByPID, pid, P);
    BI.SetPendingKeeps(FinalizeList(e, s, list).buffer, s.buffer.pendingByPID[pid := []], pid, []);
  }

  lemma FinalizePidsSnoc(e: Env, s: State, order: seq<int>, pid: int)
    requires WF(s)
    ensures
      var s1 := FinalizePids(e, s, order);
      var s2 := FinalizeList(e, s1, ListOf(s1.buffer.pendingByPID, pid));
      && s2.buffer.pendingByPID == s1.buffer.pendingByPID
      && FinalizePids(e, s, order + [pid]) == s2.(buffer := s2.buffer.(pendingByPID := s1.buffer.pendingByPID - {pid}))
  {
    assert (order + [pid])[..|order|] == order;
  }

  lemma {:induction false} FinalizePidsKeeps(e: Env, s: State, order: seq<int>, P: (seq<Pending>, Tables) -> bool)
    requires Inv(s) && Survives(P) && P(s.buffer.pendings, s.graph.db)
    ensures Inv(FinalizePids(e, s, order))
    ensures P(FinalizePids(e, s, order).buffer.pendings, FinalizePids(e, s, order).graph.db)
    ensures forall pid :: pid in FinalizePids(e, s, order).buffer.pendingByPID <==> pid in s.buffer.pendingByPID && pid !in order
    decreases |order|
  {
    if order != [] {
      var init, pid := order[..|order| - 1], order[|order| - 1];
      assert order == init + [pid];
      FinalizePidsKeeps(e, s, init, P);
      FinalizePidKeeps(e, FinalizePids(e, s, init), pid, P);
      FinalizePidsSnoc(e, s, init, pid);
    }
  }
}
