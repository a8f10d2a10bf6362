/** Whole runs of the correlator: any interleaving of process events, denials and ticks. */
module Behaviour {
  import opened Events
  import opened Model
  import opened Handlers
  import opened Invariant
  import opened IndexInvariants
  import GI = GraphInvariants

  /** One call of the watcher. `order` is the order in which the tick happened to visit the pids
    with buffered denials. */
  datatype Step =
    | ProcessEvent(ev: Event)
    | DenialLine(d: Denial, now: Time)
    | TickAt(now: Time, order: seq<int>)

  ghost predicate Possible(s: State, step: Step) {
    step.TickAt? ==> IsOrder(step.order, s.buffer.pendingByPID.Keys)
  }

  function Apply(e: Env, s: State, step: Step): (s': State)
    requires WF(s)
    ensures WF(s')
  {
    match step
    case ProcessEvent(ev) => HandleES(e, s, ev)
    case DenialLine(d, now) => HandleDenial(e, s, d, now)
    case TickAt(now, order) => Tick(e, s, now, order)
  }

  /** Each step is possible in the state the earlier ones lead to. */
  ghost predicate Feasible(e: Env, steps: seq<Step>)
    decreases |steps|, 0
  {
    steps != [] ==> Feasible(e, steps[..|steps| - 1]) && Possible(After(e, steps[..|steps| - 1]), steps[|steps| - 1])
  }

  ghost function After(e: Env, steps: seq<Step>): (s: State)
    requires Feasible(e, steps)
    ensures WF(s)
    decreases |steps|, 1
  {
    if steps == [] then INITIAL else Apply(e, After(e, steps[..|steps| - 1]), steps[|steps| - 1])
  }

  lemma ApplyInv(e: Env, s: State, step: Step)
    requires Inv(s)
    ensures Inv(Apply(e, s, step))
  {
    match step {
      case ProcessEvent(ev) => HandleESInv(e, s, ev);
      case DenialLine(d, now) => HandleDenialInv(e, s, d, now);
      case TickAt(now, order) => TickInv(e, s, now, order);
    }
  }

  /** The invariant holds in every state of every run. */
  lemma {:induction false} InvHolds(e: Env, steps: seq<Step>)
    requires Feasible(e, steps)
    ensures Inv(After(e, steps))
    decreases |steps|
  {
    if steps == [] {
      InitialInv();
    } else {
      InvHolds(e, steps[..|steps| - 1]);
      ApplyInv(e, After(e, steps[..|steps| - 1]), steps[|steps| - 1]);
    }
  }

  /** In every state of every run: process rows refer to earlier rows of their run, which are the rows
    of their image's parent and predecessor, and denial rows to a process row of their run and pid. */
  lemma RowGraphIsForest(e: Env, steps: seq<Step>)
    requires Feasible(e, steps)
    ensures
      var g := After(e, steps).graph;
      && GI.RowForest(g.db.processes)
      && GI.EdgeRows(g.arena, g.db.processes)
      && GI.DenialRowsPlaced(g.db.denials, g.db.processes)
  {
    InvHolds(e, steps);
  }

  /** In every state of every run an image with a token is found by its token exactly if it is listed
    under its pid. */
  lemma IndexesAgree(e: Env, steps: seq<Step>, i: nat)
    requires Feasible(e, steps) && i < |After(e, steps).graph.arena| && !After(e, steps).graph.arena[i].noToken
    ensures
      var s := After(e, steps);
      var tok := s.graph.arena[i].proc.token;
      Listed(s.graph.arena, s.index, i) <==> tok in s.index.images && s.index.images[tok] == i
  {
    InvHolds(e, steps);
    var s := After(e, steps);
    var tok := s.graph.arena[i].proc.token;
    if Listed(s.graph.arena, s.index, i) {
      assert PidList(s.graph.arena, s.index.images, tok.pid, s.index.byPID[tok.pid]);
      var k :| 0 <= k < |s.index.byPID[tok.pid]| && s.index.byPID[tok.pid][k] == i;
    }
    if tok in s.index.images && s.index.images[tok] == i {
      assert Tracked(s.graph.arena, s.index, tok, i);
    }
  }
}
