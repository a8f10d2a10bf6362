/** Which existing rows a step may add counts to. */
module Routing {
  import opened Events
  import opened Tables
  import opened Model
  import opened Handlers
  import opened IndexInvariants
  import opened Invariant
  import opened Behaviour
  import opened Traversal
  import RI = RoutingInvariants
  import BI = BufferInvariants
  import Conservation

  /** Rows of the earlier state are all still there, unchanged. */
  predicate RowsExtend(a: Tables, b: Tables) {
    && |a.denials| <= |b.denials| && a.denials == b.denials[..|a.denials|]
    && |a.orphans| <= |b.orphans| && a.orphans == b.orphans[..|a.orphans|]
  }

  lemma ExtendSurvives(a: Tables)
    ensures Survives((pendings: seq<Pending>, db: Tables) => RowsExtend(a, db))
  {
  }

  /** A repeat of d may be added to denial row id: the row has d's key, and the image it was
    attributed to is still the process that d's pid refers to. */
  ghost predicate MayAddToDenial(s: State, d: Denial, id: nat)
    requires WF(s) && id < |s.graph.db.denials|
  {
    && d.duplicate > 0
    && DenialRowKey(s.graph.db.denials[id]) == KeyOf(d)
    && exists i: nat ::
         && Listed(s.graph.arena, s.index, i)
         && s.graph.arena[i].run.Some?
         && s.graph.arena[i].rowID == s.graph.db.denials[id].process
         && s.graph.arena[i].proc.token.pid == d.pid
         && IsCurrent(s.graph.arena, s.index, i)
  }

  /** A repeat of d may be added to orphan row id: the row has d's key, and the pid has not been
    taken over by another process since. */
  predicate MayAddToOrphan(s: State, d: Denial, id: nat)
    requires id < |s.graph.db.orphans|
  {
    && d.duplicate > 0
    && OrphanRowKey(s.graph.db.orphans[id]) == KeyOf(d)
    && d.pid in s.routes.seen
    && s.graph.db.orphans[id].lastPidversion == Some(s.routes.seen[d.pid].pidversion)
  }

  /** A step changes an existing denial or orphan row only by adding a repeat report's count, and
    only to a row that report may be added to. */
  ghost predicate OnlyRepeatsAdd(s: State, db: Tables, step: Step)
    requires WF(s)
  {
    DenialsOnlyAdd(s, db.denials, step) && OrphansOnlyAdd(s, db.orphans, step)
  }

  ghost predicate DenialsOnlyAdd(s: State, rows: seq<DenialRow>, step: Step)
    requires WF(s)
  {
    && |s.graph.db.denials| <= |rows|
    && forall id: nat | id < |s.graph.db.denials| && rows[id] != s.graph.db.denials[id] ::
         && step.DenialLine?
         && MayAddToDenial(s, step.d, id)
         && rows[id] == s.graph.db.denials[id].(count := s.graph.db.denials[id].count + step.d.duplicate)
  }

  ghost predicate OrphansOnlyAdd(s: State, rows: seq<OrphanRow>, step: Step)
    requires WF(s)
  {
    && |s.graph.db.orphans| <= |rows|
    && forall id: nat | id < |s.graph.db.orphans| && rows[id] != s.graph.db.orphans[id] ::
         && step.DenialLine?
         && MayAddToOrphan(s, step.d, id)
         && rows[id] == s.graph.db.orphans[id].(count := s.graph.db.orphans[id].count + step.d.duplicate)
  }

  lemma RepeatAdds(e: Env, s: State, d: Denial, now: Time)
    requires Inv(s) && (RouteOf(s, d).ToDenialRow? || RouteOf(s, d).ToOrphanRow?)
    ensures RouteOf(s, d).ToDenialRow? ==> MayAddToDenial(s, d, RouteOf(s, d).id)
    ensures RouteOf(s, d).ToOrphanRow? ==> MayAddToOrphan(s, d, RouteOf(s, d).id)
  {
    var key := KeyOf(d);
    if RouteOf(s, d).ToDenialRow? {
      assert RI.StoredRoute(s.graph, s.index, key, s.routes.lastStored[key]);
      assert Listed(s.graph.arena, s.index, s.routes.lastStored[key].img);
    } else {
      assert RI.OrphanRoute(s.graph.db.orphans, s.routes.seen, key, s.routes.lastOrphan[key]);
    }
  }

  lemma TakeDenialExtends(e: Env, s: State, d: Denial, now: Time)
    requires WF(s)
    ensures RowsExtend(s.graph.db, TakeDenial(e, s, d, now).graph.db)
  {
    var p := |s.buffer.pendings|;
    var s1 := s.(buffer := NewPending(s.buffer, d, now));
    var i := Attributable(s, d);
    if i.Some? {
      BI.AttributeDecides(e, s1, p, i.value);
    }
  }

  lemma ExtendingAdds(s: State, db: Tables, step: Step)
    requires WF(s) && RowsExtend(s.graph.db, db)
    ensures OnlyRepeatsAdd(s, db, step)
  {
    assert forall id: nat | id < |s.graph.db.denials| :: db.denials[..|s.graph.db.denials|][id] == s.graph.db.denials[id];
    assert forall id: nat | id < |s.graph.db.orphans| :: db.orphans[..|s.graph.db.orphans|][id] == s.graph.db.orphans[id];
  }

  lemma RowAdds(s: State, d: Denial, now: Time, id: nat)
    requires WF(s)
    ensures id < |s.graph.db.denials| && MayAddToDenial(s, d, id) ==>
      OnlyRepeatsAdd(s, AddDenialCount(s.graph, id, d.duplicate).db, DenialLine(d, now))
    ensures id < |s.graph.db.orphans| && MayAddToOrphan(s, d, id) ==>
      OnlyRepeatsAdd(s, AddOrphanCount(s.graph, id, d.duplicate).db, DenialLine(d, now))
  {
  }

  lemma HandleDenialAdds(e: Env, s: State, d: Denial, now: Time)
    requires Inv(s)
    ensures OnlyRepeatsAdd(s, HandleDenial(e, s, d, now).graph.db, DenialLine(d, now))
  {
    match RouteOf(s, d) {
      case ToPending(p) =>
        ExtendingAdds(s, s.graph.db, DenialLine(d, now));
      case ToDenialRow(id) =>
        RepeatAdds(e, s, d, now);
        RowAdds(s, d, now, id);
      case ToOrphanRow(id) =>
        RepeatAdds(e, s, d, now);
        RowAdds(s, d, now, id);
      case NoRow =>
        TakeDenialExtends(e, s, d, now);
        ExtendingAdds(s, TakeDenial(e, s, d, now).graph.db, DenialLine(d, now));
    }
  }

  lemma ApplyAdds(e: Env, s: State, step: Step)
    requires Inv(s)
    ensures OnlyRepeatsAdd(s, Apply(e, s, step).graph.db, step)
  {
    match step {
      case ProcessEvent(ev) =>
        Conservation.HandleESCounts(e, s, ev);
        ExtendingAdds(s, HandleES(e, s, ev).graph.db, step);
      case DenialLine(d, now) =>
        HandleDenialAdds(e, s, d, now);
      case TickAt(now, order) =>
        ExtendSurvives(s.graph.db);
        TickPidsPreserves(e, s, order, now, (pendings: seq<Pending>, db: Tables) => RowsExtend(s.graph.db, db));
        ExtendingAdds(s, Tick(e, s, now, order).graph.db, step);
    }
  }

  /** Duplicate routing over every run, and no route outlives the image or process it refers to. */
  lemma RepeatsFollowTheirProcess(e: Env, steps: seq<Step>)
    requires Feasible(e, steps) && steps != []
    ensures
      var s := After(e, steps[..|steps| - 1]);
      var s' := After(e, steps);
      && OnlyRepeatsAdd(s, s'.graph.db, steps[|steps| - 1])
      && (forall k | k in s'.routes.lastStored :: Listed(s'.graph.arena, s'.index, s'.routes.lastStored[k].img))
      && RI.PartitionedByPid(s'.routes)
  {
    InvHolds(e, steps[..|steps| - 1]);
    InvHolds(e, steps);
    ApplyAdds(e, After(e, steps[..|steps| - 1]), steps[|steps| - 1]);
    var s' := After(e, steps);
    forall k | k in s'.routes.lastStored ensures Listed(s'.graph.arena, s'.index, s'.routes.lastStored[k].img) {
      assert RI.StoredRoute(s'.graph, s'.index, k, s'.routes.lastStored[k]);
    }
  }
}
