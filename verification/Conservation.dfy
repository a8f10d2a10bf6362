/** No denial is lost or counted twice: every handled weight is in a denial row, in an orphan row,
  still buffered, or dropped as noise. Everything is stated for an arbitrary selection of keys, so
  it holds in total and for each key by itself. */
module Conservation {
  import opened Events
  import opened Tables
  import opened Model
  import opened Handlers
  import opened Invariant
  import opened Behaviour
  import opened Traversal
  import BI = BufferInvariants
  import RI = RoutingInvariants

  function Share(q: Pending, fate: Fate, sel: DenialKey -> bool): int {
    if q.fate == fate && sel(KeyOf(q.d)) then q.count else 0
  }

  function SumFate(pendings: seq<Pending>, fate: Fate, sel: DenialKey -> bool): int {
    if pendings == [] then 0
    else SumFate(pendings[..|pendings| - 1], fate, sel) + Share(pendings[|pendings| - 1], fate, sel)
  }

  function InRows(db: Tables, sel: DenialKey -> bool): int {
    SumDenials(db.denials, sel) + SumOrphans(db.orphans, sel)
  }

  /** Counts in rows, buffered counts and dropped counts of the selected keys. */
  function Total(s: State, sel: DenialKey -> bool): int {
    InRows(s.graph.db, sel) + SumFate(s.buffer.pendings, Buffered, sel) + SumFate(s.buffer.pendings, Dropped, sel)
  }

  /** What the denial lines of a run reported about the selected keys. */
  function Handled(steps: seq<Step>, sel: DenialKey -> bool): int {
    if steps == [] then 0
    else
      var last := steps[|steps| - 1];
      Handled(steps[..|steps| - 1], sel) + if last.DenialLine? && sel(KeyOf(last.d)) then Weight(last.d) else 0
  }

  lemma {:induction false} SumFateUpdate(pendings: seq<Pending>, p: nat, q: Pending, fate: Fate, sel: DenialKey -> bool)
    requires p < |pendings|
    ensures SumFate(pendings[p := q], fate, sel) == SumFate(pendings, fate, sel) - Share(pendings[p], fate, sel) + Share(q, fate, sel)
    decreases |pendings|
  {
    var n := |pendings| - 1;
    if p == n {
      assert pendings[p := q][..n] == pendings[..n];
    } else {
      assert pendings[p := q][..n] == pendings[..n][p := q];
      SumFateUpdate(pendings[..n], p, q, fate, sel);
    }
  }

  lemma SettledTotal(b: Buffer, p: nat, fate: Fate, sel: DenialKey -> bool)
    requires BufferOk(b) && p < |b.pendings| && b.pendings[p].fate == Buffered && fate != Buffered
    ensures
      var q := b.pendings[p];
      var b' := BI.Settled(b, p, fate);
      SumFate(b'.pendings, Buffered, sel) + SumFate(b'.pendings, Dropped, sel)
        == SumFate(b.pendings, Buffered, sel) + SumFate(b.pendings, Dropped, sel)
           - if fate != Dropped && sel(KeyOf(q.d)) then q.count else 0
  {
    var q := b.pendings[p].(fate := fate);
    SumFateUpdate(b.pendings, p, q, Buffered, sel);
    SumFateUpdate(b.pendings, p, q, Dropped, sel);
  }

  /** Deciding a denial moves its count into the row it gets, or to the dropped counts. */
  lemma DecidesTotal(s: State, s': State, p: nat, sel: DenialKey -> bool)
    requires Undecided(s, p) && BI.Decides(s, s', p)
    ensures Total(s', sel) == Total(s, sel)
  {
    SettledTotal(s.buffer, p, s'.buffer.pendings[p].fate, sel);
    assert |s'.graph.db.denials| > |s.graph.db.denials| ==> s'.graph.db.denials[..|s.graph.db.denials|] == s.graph.db.denials;
    assert |s'.graph.db.orphans| > |s.graph.db.orphans| ==> s'.graph.db.orphans[..|s.graph.db.orphans|] == s.graph.db.orphans;
  }

  /** The counted total, as a property of the denials and the rows. */
  function TotalIs(total: int, sel: DenialKey -> bool): (seq<Pending>, Tables) -> bool {
    (pendings: seq<Pending>, db: Tables) => InRows(db, sel) + SumFate(pendings, Buffered, sel) + SumFate(pendings, Dropped, sel) == total
  }

  lemma TotalSurvives(total: int, sel: DenialKey -> bool)
    ensures Survives(TotalIs(total, sel))
  {
    var P := TotalIs(total, sel);
    forall s: State, s': State, p: nat | Undecided(s, p) && BI.Decides(s, s', p) && P(s.buffer.pendings, s.graph.db)
      ensures P(s'.buffer.pendings, s'.graph.db)
    {
      DecidesTotal(s, s', p, sel);
    }
  }

  lemma TickTotal(e: Env, s: State, now: Time, order: seq<int>, sel: DenialKey -> bool)
    requires Inv(s)
    ensures Total(Tick(e, s, now, order), sel) == Total(s, sel)
  {
    TotalSurvives(Total(s, sel), sel);
    TickPidsPreserves(e, s, order, now, TotalIs(Total(s, sel), sel));
  }

  lemma PendingRepeatTotal(s: State, p: nat, n: int, sel: DenialKey -> bool)
    requires WF(s) && Undecided(s, p)
    ensures Total(s.(buffer := AddPendingCount(s.buffer, p, n)), sel)
         == Total(s, sel) + if sel(KeyOf(s.buffer.pendings[p].d)) then n else 0
  {
    var q := s.buffer.pendings[p];
    SumFateUpdate(s.buffer.pendings, p, q.(count := q.count + n), Buffered, sel);
    SumFateUpdate(s.buffer.pendings, p, q.(count := q.count + n), Dropped, sel);
  }

  lemma RowRepeatTotal(s: State, id: nat, n: int, sel: DenialKey -> bool)
    requires WF(s)
    ensures id < |s.graph.db.denials| ==>
      Total(s.(graph := AddDenialCount(s.graph, id, n)), sel) == Total(s, sel) + if sel(DenialRowKey(s.graph.db.denials[id])) then n else 0
    ensures id < |s.graph.db.orphans| ==>
      Total(s.(graph := AddOrphanCount(s.graph, id, n)), sel) == Total(s, sel) + if sel(OrphanRowKey(s.graph.db.orphans[id])) then n else 0
  {
    if id < |s.graph.db.denials| { SumDenialsAdd(s.graph.db.denials, id, n, sel); }
    if id < |s.graph.db.orphans| { SumOrphansAdd(s.graph.db.orphans, id, n, sel); }
  }

  /** A repeat report is counted where its key's denials are counted. */
  lemma RouteHasKey(s: State, d: Denial)
    requires Inv(s)
    ensures
      match RouteOf(s, d)
      case ToPending(p) => Undecided(s, p) && KeyOf(s.buffer.pendings[p].d) == KeyOf(d)
      case ToDenialRow(id) => DenialRowKey(s.graph.db.denials[id]) == KeyOf(d)
      case ToOrphanRow(id) => OrphanRowKey(s.graph.db.orphans[id]) == KeyOf(d)
      case NoRow => true
  {
    var key := KeyOf(d);
    if key in s.routes.lastStored {
      assert RI.StoredRoute(s.graph, s.index, key, s.routes.lastStored[key]);
    }
    if key in s.routes.lastOrphan {
      assert RI.OrphanRoute(s.graph.db.orphans, s.routes.seen, key, s.routes.lastOrphan[key]);
    }
  }

  lemma HandleDenialTotal(e: Env, s: State, d: Denial, now: Time, sel: DenialKey -> bool)
    requires Inv(s)
    ensures Total(HandleDenial(e, s, d, now), sel) == Total(s, sel) + if sel(KeyOf(d)) then Weight(d) else 0
  {
    RouteHasKey(s, d);
    match RouteOf(s, d) {
      case ToPending(p) => PendingRepeatTotal(s, p, d.duplicate, sel);
      case ToDenialRow(id) => RowRepeatTotal(s, id, d.duplicate, sel);
      case ToOrphanRow(id) => RowRepeatTotal(s, id, d.duplicate, sel);
      case NoRow => TakeDenialTotal(e, s, d, now, sel);
    }
  }

  lemma TakeDenialTotal(e: Env, s: State, d: Denial, now: Time, sel: DenialKey -> bool)
    requires WF(s)
    ensures Total(TakeDenial(e, s, d, now), sel) == Total(s, sel) + if sel(KeyOf(d)) then Weight(d) else 0
  {
    var p := |s.buffer.pendings|;
    var s1 := s.(buffer := NewPending(s.buffer, d, now));
    assert s1.buffer.pendings[..p] == s.buffer.pendings;
    assert Total(s1, sel) == Total(s, sel) + if sel(KeyOf(d)) then Weight(d) else 0;
    var i := Attributable(s, d);
    if i.Some? {
      BI.AttributeDecides(e, s1, p, i.value);
      DecidesTotal(s1, TakeDenial(e, s, d, now), p, sel);
    }
  }

  /** Operations that write neither denials nor orphans keep the total. */
  predicate SameCounts(s: State, s': State) {
    && s'.graph.db.denials == s.graph.db.denials
    && s'.graph.db.orphans == s.graph.db.orphans
    && s'.buffer.pendings == s.buffer.pendings
  }

  lemma HandleESCounts(e: Env, s: State, ev: Event)
    requires WF(s)
    ensures SameCounts(s, HandleES(e, s, ev))
  {
  }

  lemma ApplyTotal(e: Env, s: State, step: Step, sel: DenialKey -> bool)
    requires Inv(s)
    ensures Total(Apply(e, s, step), sel)
         == Total(s, sel) + if step.DenialLine? && sel(KeyOf(step.d)) then Weight(step.d) else 0
  {
    match step {
      case ProcessEvent(ev) => HandleESCounts(e, s, ev);
      case DenialLine(d, now) => HandleDenialTotal(e, s, d, now, sel);
      case TickAt(now, order) => TickTotal(e, s, now, order, sel);
    }
  }

  /** Conservation over every run: for any selection of keys, the counts in denial rows and orphan
    rows, the buffered counts and the dropped counts add up to what the lines reported. */
  lemma {:induction false} CountsAreConserved(e: Env, steps: seq<Step>, sel: DenialKey -> bool)
    requires Feasible(e, steps)
    ensures Total(After(e, steps), sel) == Handled(steps, sel)
    decreases |steps|
  {
    if steps != [] {
      var init := steps[..|steps| - 1];
      CountsAreConserved(e, init, sel);
      InvHolds(e, init);
      ApplyTotal(e, After(e, init), steps[|steps| - 1], sel);
    }
  }
}
