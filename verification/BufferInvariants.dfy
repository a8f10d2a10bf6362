/** Buffered denials: each is in exactly one list until it is decided, and is decided once. */
module BufferInvariants {
  import opened Events
  import opened Tables
  import opened Model
  import opened Handlers
  import opened IndexInvariants

  /** A buffered denial waits in the list of its pid. */
  predicate Waiting(b: Buffer, lists: map<int, seq<nat>>, p: nat) {
    && p < |b.pendings|
    && b.pendings[p].d.pid in lists
    && p in lists[b.pendings[p].d.pid]
  }

  predicate WaitingList(b: Buffer, pid: int, list: seq<nat>) {
    && Distinct(list)
    && forall k | 0 <= k < |list| ::
         list[k] < |b.pendings| && b.pendings[list[k]].d.pid == pid && b.pendings[list[k]].fate == Buffered
  }

  /** `lists` holds exactly the undecided denials, each once; lastPending names one per key.
    While a list is being compacted `lists` is what is left of it, so it may differ from
    b.pendingByPID. */
  ghost predicate BufferInv(b: Buffer, lists: map<int, seq<nat>>) {
    && (forall pid | pid in lists :: WaitingList(b, pid, lists[pid]))
    && (forall p | 0 <= p < |b.pendings| && b.pendings[p].fate == Buffered :: Waiting(b, lists, p))
    && (forall k | k in b.lastPending ::
          b.lastPending[k] < |b.pendings| && b.pendings[b.lastPending[k]].fate == Buffered && KeyOf(b.pendings[b.lastPending[k]].d) == k)
    && (forall p | 0 <= p < |b.pendings| :: b.pendings[p].count >= 1)
  }

  /** The effect on the buffer of deciding denial p. */
  function Settled(b: Buffer, p: nat, fate: Fate): (b': Buffer)
    requires BufferOk(b) && p < |b.pendings|
  {
    Decided(ForgetPending(b, p), p, fate)
  }

  /** Denial p is decided: its fate is final, at most one row is written for it, and that row
    carries its fields and its count. No other denial or row is touched. */
  predicate Decides(s: State, s': State, p: nat) {
    && BufferOk(s.buffer)
    && p < |s.buffer.pendings| == |s'.buffer.pendings|
    && s'.buffer == Settled(s.buffer, p, s'.buffer.pendings[p].fate)
    && RowsDecided(s.buffer.pendings[p], s'.buffer.pendings[p].fate, s.graph.db, s'.graph.db)
  }

  predicate RowsDecided(q: Pending, fate: Fate, db: Tables, db': Tables) {
    match fate
    case Buffered => false
    case Dropped => db'.denials == db.denials && db'.orphans == db.orphans
    case Stored(id) =>
      && id == |db.denials|
      && |db'.denials| == id + 1
      && db'.denials == db.denials + [NewDenialRow(q.d, q.count, db'.denials[id].run, db'.denials[id].process)]
      && db'.orphans == db.orphans
    case Orphaned(id) =>
      && id == |db.orphans|
      && |db'.orphans| == id + 1
      && db'.orphans == db.orphans + [OrphanRowOf(q, SeenInfo(db'.orphans[id].lastPath, db'.orphans[id].lastPidversion.GetOr(0)))]
      && db'.denials == db.denials
  }

  /** Decisions that only differ in what they do to images, runs and routes. */
  lemma DecidesFrom(s0: State, s: State, s': State, p: nat)
    requires BufferOk(s0.buffer) && p < |s0.buffer.pendings| && Decides(s, s', p)
    requires s.buffer == s0.buffer || s.buffer == ForgetPending(s0.buffer, p)
    requires s.graph.db.denials == s0.graph.db.denials && s.graph.db.orphans == s0.graph.db.orphans
    ensures Decides(s0, s', p)
  {
  }

  lemma AttributeDecides(e: Env, s: State, p: nat, i: nat)
    requires WF(s) && p < |s.buffer.pendings| && i < |s.graph.arena| && s.graph.arena[i].run.Some?
    ensures Decides(s, Attribute(e, s, p, i), p)
    ensures Attribute(e, s, p, i).buffer.pendings[p].fate == Stored(|s.graph.db.denials|)
  {
  }

  lemma StoreOrphanDecides(s: State, p: nat)
    requires WF(s) && p < |s.buffer.pendings| && s.buffer == ForgetPending(s.buffer, p)
    ensures Decides(s, StoreOrphan(s, p), p)
  {
  }

  lemma AdoptDecides(e: Env, s: State, p: nat, i: Option<nat>, m: Match)
    requires WF(s) && p < |s.buffer.pendings| && (i.Some? ==> i.value < |s.graph.arena|)
    ensures Decides(s, AdoptDenial(e, s, p, i, m), p)
  {
    var d := s.buffer.pendings[p].d;
    var s1 := Adopt(s, m, d);
    var r := s1.caches.adopted[AdoptionKey(m)];
    var k := if i.Some? then i.value else |s1.graph.arena|;
    var s2 := if i.Some? then s1 else Register(s1, Stub(d.pid));
    var s3 := s2.(graph := Join(s2.graph, k, r));
    AttributeDecides(e, s3, p, k);
    DecidesFrom(s, s3, AdoptDenial(e, s, p, i, m), p);
  }

  lemma CandidateDecides(e: Env, s: State, p: nat, i: nat)
    requires WF(s) && p < |s.buffer.pendings| && i < |s.graph.arena| && e.entitlements.Some?
    requires s.buffer == ForgetPending(s.buffer, p)
    ensures Decides(s, FinalizeCandidate(e, s, p, i), p)
  {
    var s1 := s.(caches := CheckedEntitlement(e, s, i));
    if IsCandidate(e, s, i) {
      var s2 := s1.(graph := JoinCandidate(s.graph, i));
      AttributeDecides(e, s2, p, i);
      DecidesFrom(s, s2, FinalizeCandidate(e, s, p, i), p);
    } else {
      StoreOrphanDecides(s1, p);
      DecidesFrom(s, s1, FinalizeCandidate(e, s, p, i), p);
    }
  }

  /** Finalizing a denial always decides it, and touches no other. */
  lemma FinalizeDecides(e: Env, s: State, p: nat, classify: bool)
    requires WF(s) && p < |s.buffer.pendings|
    ensures Decides(s, Finalize(e, s, p, classify), p)
  {
    var s1 := s.(buffer := ForgetPending(s.buffer, p));
    var d := s1.buffer.pendings[p].d;
    var i := Resolve(s1, d.pid, d.time);
    var m := Detect(e, d.message);
    if i.Some? && s1.graph.arena[i.value].run.Some? {
      AttributeDecides(e, s1, p, i.value);
    } else if m.Some? && classify {
      AdoptDecides(e, s1, p, i, m.value);
    } else if i.Some? && classify && e.entitlements.Some? {
      CandidateDecides(e, s1, p, i.value);
    } else {
      StoreOrphanDecides(s1, p);
    }
    DecidesFrom(s, s1, Finalize(e, s, p, classify), p);
  }

  // ---------------------------------------------------------------------------------------------

  lemma SettleKeeps(b: Buffer, lists: map<int, seq<nat>>, pid: int, pre: seq<nat>, p: nat, post: seq<nat>, fate: Fate)
    requires BufferOk(b) && p < |b.pendings| && fate != Buffered
    requires BufferInv(b, lists[pid := pre + [p] + post])
    ensures BufferInv(Settled(b, p, fate), lists[pid := pre + post])
  {
    var before := lists[pid := pre + [p] + post];
    var after := lists[pid := pre + post];
    var b' := Settled(b, p, fate);
    assert WaitingList(b, pid, before[pid]);
    SettledList(b, pid, pre, p, post, fate);
    forall q | q in after ensures WaitingList(b', q, after[q]) {
      if q != pid {
        assert WaitingList(b, q, before[q]);
      }
    }
    forall q | 0 <= q < |b'.pendings| && b'.pendings[q].fate == Buffered ensures Waiting(b', after, q) {
      assert Waiting(b, before, q);
      InOneLess(pre, p, post, q);
    }
  }

  lemma InOneLess(pre: seq<nat>, p: nat, post: seq<nat>, q: nat)
    ensures q in pre + [p] + post && q != p ==> q in pre + post
  {
  }

  /** The list that denial p leaves, and its pid. */
  lemma SettledList(b: Buffer, pid: int, pre: seq<nat>, p: nat, post: seq<nat>, fate: Fate)
    requires BufferOk(b) && p < |b.pendings| && WaitingList(b, pid, pre + [p] + post)
    ensures b.pendings[p].d.pid == pid && WaitingList(Settled(b, p, fate), pid, pre + post)
  {
    var list := pre + [p] + post;
    assert list[|pre|] == p;
    assert forall k | 0 <= k < |pre + post| :: (pre + post)[k] == list[if k < |pre| then k else k + 1];
  }

  lemma NewPendingKeeps(b: Buffer, lists: map<int, seq<nat>>, d: Denial, now: Time)
    requires BufferOk(b) && BufferInv(b, lists)
    ensures BufferInv(Enqueue(NewPending(b, d, now), |b.pendings|), lists[d.pid := ListOf(lists, d.pid) + [|b.pendings|]])
  {
    var p := |b.pendings|;
    var b' := Enqueue(NewPending(b, d, now), p);
    var lists' := lists[d.pid := ListOf(lists, d.pid) + [p]];
    forall pid | pid in lists' ensures WaitingList(b', pid, lists'[pid]) {
      if pid in lists { assert WaitingList(b, pid, lists[pid]); }
    }
    forall q | 0 <= q < |b'.pendings| && b'.pendings[q].fate == Buffered ensures Waiting(b', lists', q) {
      if q < p { assert Waiting(b, lists, q); }
    }
  }

  /** A denial attributed on arrival is never buffered. */
  lemma StoredAtOnceKeeps(b: Buffer, lists: map<int, seq<nat>>, d: Denial, now: Time, fate: Fate)
    requires BufferOk(b) && BufferInv(b, lists) && fate != Buffered
    ensures BufferInv(Settled(NewPending(b, d, now), |b.pendings|, fate), lists)
  {
    var p := |b.pendings|;
    var b' := Settled(NewPending(b, d, now), p, fate);
    forall pid | pid in lists ensures WaitingList(b', pid, lists[pid]) {
      assert WaitingList(b, pid, lists[pid]);
    }
    forall q | 0 <= q < |b'.pendings| && b'.pendings[q].fate == Buffered ensures Waiting(b', lists, q) {
      assert Waiting(b, lists, q);
    }
  }

  lemma AddPendingCountKeeps(b: Buffer, lists: map<int, seq<nat>>, p: nat, n: int)
    requires BufferOk(b) && BufferInv(b, lists) && p < |b.pendings| && n > 0
    ensures BufferInv(AddPendingCount(b, p, n), lists)
  {
    var b' := AddPendingCount(b, p, n);
    forall pid | pid in lists ensures WaitingList(b', pid, lists[pid]) {
      assert WaitingList(b, pid, lists[pid]);
    }
    forall q | 0 <= q < |b'.pendings| && b'.pendings[q].fate == Buffered ensures Waiting(b', lists, q) {
      assert Waiting(b, lists, q);
    }
  }

  /** Only the lists matter to the invariant: emptied lists may be dropped or kept. */
  lemma SetPendingKeeps(b: Buffer, lists: map<int, seq<nat>>, pid: int, list: seq<nat>)
    requires BufferOk(b) && BufferInv(b, lists)
    requires list == [] ==> pid !in lists || lists[pid] == []
    requires list != [] ==> pid in lists && lists[pid] == list
    requires forall q | q != pid :: (q in lists <==> q in b.pendingByPID) && (q in lists ==> lists[q] == b.pendingByPID[q])
    requires InRange(list, |b.pendings|)
    ensures BufferInv(SetPending(b, pid, list), SetPending(b, pid, list).pendingByPID)
  {
    var b' := SetPending(b, pid, list);
    forall q | q in b'.pendingByPID ensures WaitingList(b', q, b'.pendingByPID[q]) {
      assert WaitingList(b, q, lists[q]);
    }
    forall q | 0 <= q < |b'.pendings| && b'.pendings[q].fate == Buffered ensures Waiting(b', b'.pendingByPID, q) {
      assert Waiting(b, lists, q);
    }
  }
}
