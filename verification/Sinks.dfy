/** The rows the correlator writes, as a store that each write changes in place. */
module Sinks {
  import opened Events
  import opened Tables

  class Sink {
    var sessions: seq<SessionRow>
    var runs: seq<RunRow>
    var processes: seq<ProcessRow>
    var denials: seq<DenialRow>
    var orphans: seq<OrphanRow>

    ghost function Rows(): Tables
      reads this
    {
      Tables(sessions, runs, processes, denials, orphans)
    }

    constructor ()
      ensures Rows() == NO_ROWS
    {
      sessions, runs, processes, denials, orphans := [], [], [], [], [];
    }

    /** The id of the session (kind, key), which is created or seen again at t. */
    method EnsureSession(kind: string, key: string, t: Time) returns (id: nat)
      modifies `sessions
      ensures id == FindSession(old(sessions), kind, key)
      ensures id < |sessions| && sessions[id].kind == kind && sessions[id].key == key
      ensures sessions == EnsuredSession(old(sessions), kind, key, t)
    {
      id := 0;
      while id < |sessions| && (sessions[id].kind != kind || sessions[id].key != key)
        invariant id <= |sessions|
        invariant forall j | 0 <= j < id :: sessions[j].kind != kind || sessions[j].key != key
      {
        id := id + 1;
      }
      if id == |sessions| {
        sessions := sessions + [SessionRow(kind, key, t, t)];
      } else {
        var row := sessions[id];
        if row.lastSeen < t {
          row := row.(lastSeen := t);
        }
        if t < row.firstSeen {
          row := row.(firstSeen := t);
        }
        sessions := sessions[id := row];
      }
    }

    method InsertRun(row: RunRow) returns (id: nat)
      modifies `runs
      ensures id == |old(runs)| && runs == old(runs) + [row]
    {
      id := |runs|;
      runs := runs + [row];
    }

    /** The first session sticks. */
    method SetRunSession(id: nat, session: nat, tag: string, tagCommand: string)
      requires id < |runs|
      modifies `runs
      ensures runs == old(runs)[id := WithSession(old(runs)[id], session, tag, tagCommand)]
    {
      if runs[id].session.None? {
        runs := runs[id := runs[id].(session := Some(session), tag := tag, tagCommand := tagCommand)];
      }
    }

    method EndRun(id: nat, t: Option<Time>, status: Status)
      requires id < |runs|
      modifies `runs
      ensures runs == old(runs)[id := EndedRun(old(runs)[id], t, status)]
    {
      runs := runs[id := runs[id].(endedAt := NullTime(t), status := status, ends := runs[id].ends + 1)];
    }

    method InsertProcess(row: ProcessRow) returns (id: nat)
      modifies `processes
      ensures id == |old(processes)| && processes == old(processes) + [row]
    {
      id := |processes|;
      processes := processes + [row];
    }

    method EndProcess(id: nat, t: Option<Time>, reason: EndReason, exitStatus: Option<int>)
      requires id < |processes|
      modifies `processes
      ensures processes == old(processes)[id := EndedProcess(old(processes)[id], t, reason, exitStatus)]
    {
      var row := processes[id];
      processes := processes[id := row.(endedAt := NullTime(t), endReason := Some(reason), exitStatus := exitStatus, ends := row.ends + 1)];
    }

    method InsertDenial(row: DenialRow) returns (id: nat)
      modifies `denials
      ensures id == |old(denials)| && denials == old(denials) + [row]
    {
      id := |denials|;
      denials := denials + [row];
    }

    method AddDenialCount(id: nat, n: int)
      requires id < |denials|
      modifies `denials
      ensures denials == old(denials)[id := old(denials)[id].(count := old(denials)[id].count + n)]
    {
      denials := denials[id := denials[id].(count := denials[id].count + n)];
    }

    method InsertOrphan(row: OrphanRow) returns (id: nat)
      modifies `orphans
      ensures id == |old(orphans)| && orphans == old(orphans) + [row]
    {
      id := |orphans|;
      orphans := orphans + [row];
    }

    method AddOrphanCount(id: nat, n: int)
      requires id < |orphans|
      modifies `orphans
      ensures orphans == old(orphans)[id := old(orphans)[id].(count := old(orphans)[id].count + n)]
    {
      orphans := orphans[id := orphans[id].(count := orphans[id].count + n)];
    }
  }
}
