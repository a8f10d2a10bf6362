/** Every denial that is not a repeat is decided at most once, for good, and rows correspond one to
  one to the denials stored or orphaned. */
module Fates {
  import opened Events
  import opened Tables
  import opened Model
  import opened Handlers
  import opened Invariant
  import opened Behaviour
  import opened Traversal
  import BI = BufferInvariants
  import Conservation

  /** A denial row carries the fields of the denial it was written for, and at least its count. */
  predicate RowOf(row: DenialRow, q: Pending) {
    row == NewDenialRow(q.d, row.count, row.run, row.process) && row.count >= q.count
  }

  predicate OrphanOf(row: OrphanRow, q: Pending) {
    row == OrphanRowOf(q, SeenInfo(row.lastPath, row.lastPidversion.GetOr(0))).(count := row.count) && row.count >= q.count
  }

  /** The fate of a denial names its row. */
  predicate FateNamesRow(q: Pending, db: Tables) {
    && (q.fate.Stored? ==> q.fate.row < |db.denials| && RowOf(db.denials[q.fate.row], q))
    && (q.fate.Orphaned? ==> q.fate.row < |db.orphans| && OrphanOf(db.orphans[q.fate.row], q))
  }

  /** Some denial has this fate. */
  predicate Fated(pendings: seq<Pending>, p: nat, fate: Fate) {
    p < |pendings| && pendings[p].fate == fate
  }

  ghost predicate SomeFated(pendings: seq<Pending>, fate: Fate) {
    exists p: nat :: Fated(pendings, p, fate)
  }

  ghost predicate OneToOne(pendings: seq<Pending>, db: Tables) {
    && (forall p | 0 <= p < |pendings| :: FateNamesRow(pendings[p], db))
    && (forall p: nat, q: nat, fate: Fate :: Fated(pendings, p, fate) && Fated(pendings, q, fate) && (fate.Stored? || fate.Orphaned?) ==> p == q)
    && (forall id: nat | id < |db.denials| :: SomeFated(pendings, Stored(id)))
    && (forall id: nat | id < |db.orphans| :: SomeFated(pendings, Orphaned(id)))
  }

  // ---------------------------------------------------------------------------------------------

  lemma {:induction false} FatedStays(s: State, s': State, p: nat, fate: Fate)
    requires Undecided(s, p) && BI.Decides(s, s', p) && fate != Buffered
    requires SomeFated(s.buffer.pendings, fate)
    ensures SomeFated(s'.buffer.pendings, fate)
  {
    var q: nat :| Fated(s.buffer.pendings, q, fate);
    assert Fated(s'.buffer.pendings, q, fate);
  }

  lemma DecidesOneToOne(s: State, s': State, p: nat)
    requires Undecided(s, p) && BI.Decides(s, s', p) && OneToOne(s.buffer.pendings, s.graph.db)
    ensures OneToOne(s'.buffer.pendings, s'.graph.db)
  {
    var a := s.buffer.pendings;
    var b := s'.buffer.pendings;
    assert forall q: nat, fate: Fate :: fate != b[p].fate && fate != Buffered ==> (Fated(b, q, fate) <==> Fated(a, q, fate));
    forall q: nat, r: nat, fate: Fate | Fated(b, q, fate) && Fated(b, r, fate) && (fate.Stored? || fate.Orphaned?) ensures q == r {
      if fate == b[p].fate {
        assert q != p ==> FateNamesRow(a[q], s.graph.db);
        assert r != p ==> FateNamesRow(a[r], s.graph.db);
      } else {
        assert Fated(a, q, fate) && Fated(a, r, fate);
      }
    }
    assert Fated(b, p, b[p].fate);
    forall id: nat | id < |s'.graph.db.denials| ensures SomeFated(b, Stored(id)) {
      if id < |s.graph.db.denials| { FatedStays(s, s', p, Stored(id)); }
    }
    forall id: nat | id < |s'.graph.db.orphans| ensures SomeFated(b, Orphaned(id)) {
      if id < |s.graph.db.orphans| { FatedStays(s, s', p, Orphaned(id)); }
    }
    forall q | 0 <= q < |b| ensures FateNamesRow(b[q], s'.graph.db) {
      assert FateNamesRow(a[q], s.graph.db);
    }
  }

  lemma OneToOneSurvives()
    ensures Survives((pendings: seq<Pending>, db: Tables) => OneToOne(pendings, db))
  {
    forall s: State, s': State, p: nat | Undecided(s, p) && BI.Decides(s, s', p) && OneToOne(s.buffer.pendings, s.graph.db)
      ensures OneToOne(s'.buffer.pendings, s'.graph.db)
    {
      DecidesOneToOne(s, s', p);
    }
  }

  lemma NewPendingOneToOne(pendings: seq<Pending>, q: Pending, db: Tables)
    requires OneToOne(pendings, db) && q.fate == Buffered
    ensures OneToOne(pendings + [q], db)
  {
    var a := pendings;
    var b := pendings + [q];
    assert forall r: nat, fate: Fate :: fate != Buffered ==> (Fated(b, r, fate) <==> Fated(a, r, fate));
    forall fate: Fate | fate != Buffered && SomeFated(a, fate) ensures SomeFated(b, fate) {
      var r: nat :| Fated(a, r, fate);
      assert Fated(b, r, fate);
    }
  }

  /** More counts on a row, or on a denial still buffered, change no fate. */
  lemma CountsOneToOne(a: seq<Pending>, b: seq<Pending>, db: Tables, db': Tables)
    requires OneToOne(a, db) && |a| == |b|
    requires forall p | 0 <= p < |a| :: b[p] == a[p].(count := b[p].count) && (a[p].fate != Buffered ==> b[p] == a[p])
    requires |db'.denials| == |db.denials| && |db'.orphans| == |db.orphans|
    requires forall id | 0 <= id < |db.denials| ::
      db'.denials[id] == db.denials[id].(count := db'.denials[id].count) && db'.denials[id].count >= db.denials[id].count
    requires forall id | 0 <= id < |db.orphans| ::
      db'.orphans[id] == db.orphans[id].(count := db'.orphans[id].count) && db'.orphans[id].count >= db.orphans[id].count
    ensures OneToOne(b, db')
  {
    assert forall r: nat, fate: Fate :: Fated(b, r, fate) <==> Fated(a, r, fate);
    forall fate: Fate | SomeFated(a, fate) ensures SomeFated(b, fate) {
      var r: nat :| Fated(a, r, fate);
      assert Fated(b, r, fate);
    }
    forall p | 0 <= p < |b| ensures FateNamesRow(b[p], db') {
      assert FateNamesRow(a[p], db);
    }
  }

  lemma TakeDenialOneToOne(e: Env, s: State, d: Denial, now: Time)
    requires WF(s) && OneToOne(s.buffer.pendings, s.graph.db)
    ensures OneToOne(TakeDenial(e, s, d, now).buffer.pendings, TakeDenial(e, s, d, now).graph.db)
  {
    var p := |s.buffer.pendings|;
    var s1 := s.(buffer := NewPending(s.buffer, d, now));
    NewPendingOneToOne(s.buffer.pendings, s1.buffer.pendings[p], s.graph.db);
    var i := Attributable(s, d);
    if i.Some? {
      BI.AttributeDecides(e, s1, p, i.value);
      DecidesOneToOne(s1, TakeDenial(e, s, d, now), p);
    }
  }

  lemma PendingRepeatOneToOne(b: Buffer, db: Tables, p: nat, n: int)
    requires BufferOk(b) && p < |b.pendings| && b.pendings[p].fate == Buffered && OneToOne(b.pendings, db)
    ensures OneToOne(AddPendingCount(b, p, n).pendings, db)
  {
    CountsOneToOne(b.pendings, AddPendingCount(b, p, n).pendings, db, db);
  }

  lemma RowRepeatOneToOne(pendings: seq<Pending>, g: Graph, id: nat, n: nat)
    requires GraphOk(g) && OneToOne(pendings, g.db)
    ensures id < |g.db.denials| ==> OneToOne(pendings, AddDenialCount(g, id, n).db)
    ensures id < |g.db.orphans| ==> OneToOne(pendings, AddOrphanCount(g, id, n).db)
  {
    if id < |g.db.denials| { CountsOneToOne(pendings, pendings, g.db, AddDenialCount(g, id, n).db); }
    if id < |g.db.orphans| { CountsOneToOne(pendings, pendings, g.db, AddOrphanCount(g, id, n).db); }
  }

  lemma RepeatOneToOne(e: Env, s: State, d: Denial, now: Time)
    requires Inv(s) && OneToOne(s.buffer.pendings, s.graph.db) && !RouteOf(s, d).NoRow?
    ensures OneToOne(HandleDenial(e, s, d, now).buffer.pendings, HandleDenial(e, s, d, now).graph.db)
  {
    Conservation.RouteHasKey(s, d);
    match RouteOf(s, d) {
      case ToPending(p) => PendingRepeatOneToOne(s.buffer, s.graph.db, p, d.duplicate);
      case ToDenialRow(id) => RowRepeatOneToOne(s.buffer.pendings, s.graph, id, d.duplicate);
      case ToOrphanRow(id) => RowRepeatOneToOne(s.buffer.pendings, s.graph, id, d.duplicate);
    }
  }

  lemma ApplyOneToOne(e: Env, s: State, step: Step)
    requires Inv(s) && OneToOne(s.buffer.pendings, s.graph.db)
    ensures OneToOne(Apply(e, s, step).buffer.pendings, Apply(e, s, step).graph.db)
  {
    match step {
      case ProcessEvent(ev) =>
        Conservation.HandleESCounts(e, s, ev);
        CountsOneToOne(s.buffer.pendings, s.buffer.pendings, s.graph.db, HandleES(e, s, ev).graph.db);
      case DenialLine(d, now) =>
        if RouteOf(s, d).NoRow? {
          TakeDenialOneToOne(e, s, d, now);
        } else {
          RepeatOneToOne(e, s, d, now);
        }
      case TickAt(now, order) =>
        OneToOneSurvives();
        TickPidsPreserves(e, s, order, now, (pendings: seq<Pending>, db: Tables) => OneToOne(pendings, db));
    }
  }

  /** In every state of every run each row belongs to exactly one denial, whose fields it carries. */
  lemma {:induction false} RowsMatchDenials(e: Env, steps: seq<Step>)
    requires Feasible(e, steps)
    ensures OneToOne(After(e, steps).buffer.pendings, After(e, steps).graph.db)
    decreases |steps|
  {
    if steps != [] {
      var init := steps[..|steps| - 1];
      RowsMatchDenials(e, init);
      InvHolds(e, init);
      ApplyOneToOne(e, After(e, init), steps[|steps| - 1]);
    }
  }

  // ---------------------------------------------------------------------------------------------
  // Decisions are final

  /** Decided denials stay as they are; buffered ones keep their line and arrival time. */
  predicate Final(a: seq<Pending>, b: seq<Pending>) {
    && |a| <= |b|
    && forall p | 0 <= p < |a| ::
         b[p].d == a[p].d && b[p].arrived == a[p].arrived && (a[p].fate != Buffered ==> b[p] == a[p])
  }

  lemma FinalSurvives(a: seq<Pending>)
    ensures Survives((pendings: seq<Pending>, db: Tables) => Final(a, pendings))
  {
  }

  lemma ApplyFinal(e: Env, s: State, step: Step)
    requires Inv(s)
    ensures Final(s.buffer.pendings, Apply(e, s, step).buffer.pendings)
  {
    match step {
      case ProcessEvent(ev) =>
        HandleESInv(e, s, ev);
      case DenialLine(d, now) =>
        HandleDenialFinal(e, s, d, now);
      case TickAt(now, order) =>
        TickFinal(e, s, now, order);
    }
  }

  lemma HandleDenialFinal(e: Env, s: State, d: Denial, now: Time)
    requires Inv(s)
    ensures Final(s.buffer.pendings, HandleDenial(e, s, d, now).buffer.pendings)
  {
    Conservation.RouteHasKey(s, d);
    if RouteOf(s, d).NoRow? {
      TakeDenialFinal(e, s, d, now);
    }
  }

  lemma TakeDenialFinal(e: Env, s: State, d: Denial, now: Time)
    requires WF(s)
    ensures Final(s.buffer.pendings, TakeDenial(e, s, d, now).buffer.pendings)
  {
  }

  lemma TickFinal(e: Env, s: State, now: Time, order: seq<int>)
    requires Inv(s)
    ensures Final(s.buffer.pendings, Tick(e, s, now, order).buffer.pendings)
  {
    FinalSurvives(s.buffer.pendings);
    TickPidsPreserves(e, s, order, now, (pendings: seq<Pending>, db: Tables) => Final(s.buffer.pendings, pendings));
  }

  /** A denial is decided once: along any continuation of a run its fate, once decided, is final. */
  lemma {:induction false} DecisionsAreFinal(e: Env, steps: seq<Step>, k: nat)
    requires Feasible(e, steps) && k <= |steps|
    ensures Feasible(e, steps[..k])
    ensures Final(After(e, steps[..k]).buffer.pendings, After(e, steps).buffer.pendings)
    decreases |steps|
  {
    if k == |steps| {
      assert steps[..k] == steps;
    } else {
      var init := steps[..|steps| - 1];
      assert init[..k] == steps[..k];
      DecisionsAreFinal(e, init, k);
      InvHolds(e, init);
      ApplyFinal(e, After(e, init), steps[|steps| - 1]);
    }
  }
}
