/**
  What the record of a job says about its past, in every reachable state: which
  flags belong to which point of the program, and that no job goes back.
*/
module ServiceRecords {
  import opened ServiceState
  import opened ServiceSteps
  import opened ServiceActions
  import opened ServiceShape
  import opened ServiceGraph

  /** Before the started frame: nothing has been sent and nothing counted. */
  predicate BeforeAck(p: Phase) {
    p.Queued? || p.Taken? || p.Selected? || p.Capturing? || p.Waiting?
  }

  predicate AtNetwork(p: Phase) {
    p.Selected? || p.Capturing? || p.Waiting? || p.Acking? || p.Acked? || p.AckFailed? || p.Connected?
  }

  /** The flags of a record fit its phase. */
  predicate Coherent(j: Job) {
    (BeforeAck(j.phase) ==> !j.started) &&
    (BeforeAck(j.phase) || AtNetwork(j.phase) ==> !j.captured && j.successes.None?) &&
    (AtNetwork(j.phase) ==> j.endpoint.Some?) &&
    (j.phase.Acking? || j.phase.Acked? || j.phase.AckFailed? || j.phase.Connected? || j.phase.Recorded? ==>
       j.started) &&
    (j.phase.Ended? ==>
       j.successes.None? && (j.phase.permit ==> j.started) && (j.captured && j.started ==> j.phase.permit)) &&
    (j.phase.Recorded? ==> j.successes.Some?) &&
    (j.phase.Reporting? && j.successes.Some? ==> j.phase.count == j.successes) &&
    (j.phase.Retired? && j.successes.Some? ==> j.phase.count == j.successes)
  }

  ghost predicate Records(s: Service) {
    forall id :: id in s.table ==> Coherent(s.table[id])
  }

  /** How far a job has come; no edge of the graph goes back. */
  function Rank(p: Phase): nat {
    match p
    case Queued => 0
    case Taken => 1
    case Selected => 2
    case Capturing => 3
    case Waiting(_) => 4
    case Acking => 5
    case Acked => 6
    case AckFailed => 6
    case Connected => 7
    case Ended(_, _) => 8
    case Recorded(_) => 9
    case Judging(_) => 10
    case Reporting(_) => 11
    case Retired(_) => 12
    case Done => 13
    case Crashed => 14
    case Doomed => 15
    case Finished => 16
  }

  /** What every step keeps of the record of every job. */
  predicate Onward(j: Job, k: Job) {
    k.attempt == j.attempt && k.domain == j.domain && k.bounty == j.bounty && Rank(j.phase) <= Rank(k.phase) &&
    (j.running ==> k.running) && (j.started ==> k.started) && (j.cancelRequested ==> k.cancelRequested) &&
    (j.controlCancelled ==> k.controlCancelled)
  }

  /** Between the decision to send the started frame and the permit. */
  predicate PastTheWait(j: Job) {
    j.phase.Acking? || j.phase.Acked? || j.phase.AckFailed?
  }

  /** What an edge does to the record of the job it serves. */
  predicate Moves(a: Action, j: Job, k: Job) {
    Coherent(k) && Onward(j, k) && (a.Take? || k.running == j.running) &&
    (Rank(j.phase) < Rank(k.phase) || ((a.Wake? || a.MarkCancelled?) && Rank(j.phase) == Rank(k.phase)))
  }

  /**
    Where an edge may lead: who comes to sleep, to hold a permit, to stand in the gate, past the wait, or to the end.
  */
  predicate Leads(a: Action, j: Job, k: Job) {
    (k.phase.Waiting? ==> a.EnterGate? || a.Wake?) &&
    (k.HoldsPermit() ==> j.HoldsPermit() || (a.GrantOrRefuse? && k.phase.Connected?)) &&
    (k.InGate() ==> a.EnterGate? || (j.InGate() && k.ticket == j.ticket && !a.GrantOrRefuse?)) &&
    (PastTheWait(k) ==> (PastTheWait(j) && !a.GrantOrRefuse?) || ((a.EnterGate? || a.Wake?) && k.phase.Acking?)) &&
    !k.phase.Queued? && (k.phase.Doomed? ==> a.Fatal?) &&
    (k.phase.Finished? ==>
       ((a.Leave? && (j.phase.Done? || j.phase.Doomed?)) || a.WriteTerminal?) && k == j.(phase := Finished))
  }

  lemma QueueMoves(a: Action, j: Job, k: Job)
    requires Coherent(j) && EarlyEdge(a, j, k) && (a.Take? || a.CancelQueued?)
    ensures Moves(a, j, k) && Leads(a, j, k)
  {
  }

  lemma ResolveMoves(a: Action, j: Job, k: Job)
    requires Coherent(j) && EarlyEdge(a, j, k) && (a.ResolveCached? || a.ResolveFresh? || a.ResolveCancelled?)
    ensures Moves(a, j, k) && Leads(a, j, k)
  {
  }

  lemma SelectMoves(a: Action, j: Job, k: Job)
    requires Coherent(j) && EarlyEdge(a, j, k) && (a.Select? || a.CheckStart?)
    ensures Moves(a, j, k) && Leads(a, j, k)
  {
  }

  lemma EnterMoves(a: Action, j: Job, k: Job)
    requires Coherent(j) && GateEdge(a, j, k) && (a.EnterGate?)
    ensures Moves(a, j, k) && Leads(a, j, k)
  {
  }

  lemma WakeMoves(a: Action, j: Job, k: Job)
    requires Coherent(j) && GateEdge(a, j, k) && (a.Wake?)
    ensures Moves(a, j, k) && Leads(a, j, k)
  {
  }

  lemma AckMoves(a: Action, j: Job, k: Job)
    requires Coherent(j) && GateEdge(a, j, k) && (a.WriteStarted? || a.AbandonAck?)
    ensures Moves(a, j, k) && Leads(a, j, k)
  {
  }

  lemma GrantMoves(a: Action, j: Job, k: Job)
    requires Coherent(j) && GateEdge(a, j, k) && (a.GrantOrRefuse? || a.EndCapture?)
    ensures Moves(a, j, k) && Leads(a, j, k)
  {
  }

  lemma RecordMoves(a: Action, j: Job, k: Job)
    requires Coherent(j) && LateEdge(a, j, k) && (a.Record? || a.WriteCapture?)
    ensures Moves(a, j, k) && Leads(a, j, k)
  {
  }

  lemma JudgeMoves(a: Action, j: Job, k: Job)
    requires Coherent(j) && LateEdge(a, j, k) && (a.MarkCancelled? || a.Report?)
    ensures Moves(a, j, k) && Leads(a, j, k)
  {
  }

  lemma RetireMoves(a: Action, j: Job, k: Job)
    requires Coherent(j) && FinalEdge(a, j, k) && (a.RetireJob? || a.WriteTerminal?)
    ensures Moves(a, j, k) && Leads(a, j, k)
  {
  }

  lemma CrashMoves(a: Action, j: Job, k: Job)
    requires Coherent(j) && FinalEdge(a, j, k) && (a.Crash? || a.Fatal? || a.Leave?)
    ensures Moves(a, j, k) && Leads(a, j, k)
  {
  }

  lemma EdgeMoves(a: Action, j: Job, k: Job)
    requires Coherent(j) && Edge(a, j, k)
    ensures Moves(a, j, k) && Leads(a, j, k)
  {
    hide Coherent;
    hide Moves;
    hide Leads;
    if EarlyEdge(a, j, k) {
      if a.Take? || a.CancelQueued? { QueueMoves(a, j, k); }
      else if a.Select? || a.CheckStart? { SelectMoves(a, j, k); }
      else { ResolveMoves(a, j, k); }
    } else if GateEdge(a, j, k) {
      if a.EnterGate? { EnterMoves(a, j, k); }
      else if a.Wake? { WakeMoves(a, j, k); }
      else if a.GrantOrRefuse? || a.EndCapture? { GrantMoves(a, j, k); }
      else { AckMoves(a, j, k); }
    } else if LateEdge(a, j, k) {
      if a.Record? || a.WriteCapture? { RecordMoves(a, j, k); } else { JudgeMoves(a, j, k); }
    } else {
      if a.RetireJob? || a.WriteTerminal? { RetireMoves(a, j, k); } else { CrashMoves(a, j, k); }
    }
  }

  lemma StillKeeps(j: Job, k: Job)
    requires Still(j, k)
    ensures Coherent(j) ==> Coherent(k)
    ensures Rank(j.phase) == Rank(k.phase) && Onward(j, k)
  {
  }

  lemma FreshCoherent(k: Job)
    requires k.phase.Queued? && Fresh(k)
    ensures Coherent(k)
  {
  }

  /** Theorem: records stay coherent, and no job ever goes back or changes its identity. */
  lemma RecordsKept(s: Service, a: Action)
    requires Shape(s) && Records(s) && Possible(s, a)
    ensures Records(Apply(s, a))
    ensures forall id :: id in s.table ==> id in Apply(s, a).table && Onward(s.table[id], Apply(s, a).table[id])
  {
    hide Apply;
    hide Possible;
    hide Shape;
    hide Serves;
    hide Edge;
    hide Still;
    hide Rank;
    hide Coherent;
    hide Onward;
    hide Leads;
    hide Fresh;
    JobsFollowGraph(s, a);
    var t := Apply(s, a);
    forall id | id in s.table ensures id in t.table && Onward(s.table[id], t.table[id]) && Coherent(t.table[id]) {
      assert Follows(s, t, a, id);
      if Still(s.table[id], t.table[id]) {
        StillKeeps(s.table[id], t.table[id]);
      } else {
        EdgeMoves(a, s.table[id], t.table[id]);
      }
    }
    forall id | id in t.table && id !in s.table ensures Coherent(t.table[id]) { FreshCoherent(t.table[id]); }
  }
}
