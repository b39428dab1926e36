/**
  Nobody is left behind by a shutdown, be it ordered by the controller or forced by
  a failing output: once the service is closed no job sleeps without a notification.
*/
module ServiceShutdown {
  import opened ServiceState
  import opened ServiceSteps
  import opened ServiceActions
  import opened ServiceShape
  import opened ServiceGraph

  ghost predicate NobodySleeps(s: Service) {
    forall id :: id in s.table ==> !s.table[id].SleepsUnnotified()
  }

  ghost predicate NobodyLeftBehind(s: Service) {
    s.end.closed ==> NobodySleeps(s)
  }

  lemma StillAwake(j: Job, k: Job)
    requires Still(j, k) && !j.SleepsUnnotified()
    ensures !k.SleepsUnnotified()
  {
  }

  lemma EarlyAwake(a: Action, j: Job, k: Job)
    requires EarlyEdge(a, j, k)
    ensures !k.phase.Waiting?
  {
  }

  lemma GateAwake(a: Action, j: Job, k: Job)
    requires GateEdge(a, j, k) && !a.EnterGate? && !a.Wake?
    ensures !k.phase.Waiting?
  {
    hide TurnEdge;
  }

  lemma LateAwake(a: Action, j: Job, k: Job)
    requires LateEdge(a, j, k)
    ensures !k.phase.Waiting?
  {
  }

  lemma FinalAwake(a: Action, j: Job, k: Job)
    requires FinalEdge(a, j, k)
    ensures !k.phase.Waiting?
  {
  }

  /** Only a turn in the gate puts a job to sleep. */
  lemma EdgeAwake(a: Action, j: Job, k: Job)
    requires Edge(a, j, k) && !a.EnterGate? && !a.Wake?
    ensures !k.SleepsUnnotified()
  {
    hide EarlyEdge;
    hide GateEdge;
    hide LateEdge;
    hide FinalEdge;
    if EarlyEdge(a, j, k) {
      EarlyAwake(a, j, k);
    } else if GateEdge(a, j, k) {
      GateAwake(a, j, k);
    } else if LateEdge(a, j, k) {
      LateAwake(a, j, k);
    } else {
      FinalAwake(a, j, k);
    }
  }

  lemma RefusedAwake(s: Service, i: nat, why: Refusal)
    requires i < |s.gate| && s.gate[i] in s.table
    ensures s.gate[i] in Refuse(s, i, why).table &&
            Refuse(s, i, why).table[s.gate[i]].phase == Ended(false, why.Shutdown?)
  {
    hide Release;
  }

  /** A turn in a closed service ends in a refusal. */
  lemma ClosedTurn(s: Service, i: nat)
    requires s.end.closed && i < |s.gate| && s.gate[i] in s.table
    ensures s.gate[i] in Turn(s, i).table && !Turn(s, i).table[s.gate[i]].SleepsUnnotified()
  {
    hide Refuse;
    RefusedAwake(s, i, Shutdown);
  }

  lemma ClosedGate(s: Service, a: Action, id: JobId)
    requires s.end.closed && Possible(s, a) && (a.EnterGate? || a.Wake?) && id in s.table && Serves(s, a, id)
    ensures id in Apply(s, a).table && !Apply(s, a).table[id].SleepsUnnotified()
  {
    hide Apply;
    hide Enabled;
    hide Turn;
    match a {
      case EnterGate(k) =>
        OnEnterGate(s, k);
        assert Arrived(s, id).gate[|s.gate|] == id;
        ClosedTurn(Arrived(s, id), |s.gate|);
      case Wake(i) =>
        OnWake(s, i);
        ClosedTurn(s, i);
    }
  }

  /** Shutting down tells every job that waits, for it is registered. */
  lemma ShutTells(s: Service, u: Service)
    requires Shape(s) && u.table == s.table && u.live == s.live
    ensures NobodySleeps(DoShut(u))
  {
    hide Shape;
    var t := DoShut(u);
    forall id | id in t.table ensures !t.table[id].SleepsUnnotified() {
      assert id in s.table;
      if s.table[id].phase.Waiting? { Places(s, id); }
    }
  }

  /** Closing tells everyone. */
  lemma ClosingTells(s: Service, a: Action)
    requires Shape(s) && Possible(s, a) && (a.BeginClose? || a.Fatal? || a.FatalSpawn?)
    ensures NobodySleeps(Apply(s, a))
  {
    hide Apply;
    hide Enabled;
    hide Shape;
    hide DoShut;
    ShutTells(s, s);
    ShutTells(s, Fail(s));
    match a
    case BeginClose => OnBeginClose(s);
    case Fatal(id) => OnFatal(s, id);
    case FatalSpawn => OnFatalSpawn(s);
  }

  /** A step of a closed service wakes no sleeper up to sleep again. */
  lemma ClosedStep(s: Service, a: Action, id: JobId)
    requires Shape(s) && NobodySleeps(s) && s.end.closed && Possible(s, a) && AllFollow(s, a) && id in Apply(s, a).table
    ensures !Apply(s, a).table[id].SleepsUnnotified()
  {
    hide Apply;
    hide Possible;
    hide Shape;
    hide Edge;
    hide Still;
    hide Serves;
    if id in s.table {
      assert Follows(s, Apply(s, a), a, id);
      if Still(s.table[id], Apply(s, a).table[id]) {
        StillAwake(s.table[id], Apply(s, a).table[id]);
      } else if a.EnterGate? || a.Wake? {
        ClosedGate(s, a, id);
      } else {
        EdgeAwake(a, s.table[id], Apply(s, a).table[id]);
      }
    }
  }

  /** Theorem: in a closed service nobody sleeps on untold, even after an output failure. */
  lemma ShutdownKept(s: Service, a: Action)
    requires Shape(s) && NobodyLeftBehind(s) && Possible(s, a)
    ensures NobodyLeftBehind(Apply(s, a))
  {
    hide Apply;
    hide Possible;
    hide Shape;
    hide AllFollow;
    EndKept(s, a);
    if a.BeginClose? || a.Fatal? || a.FatalSpawn? {
      ClosingTells(s, a);
    } else if s.end.closed {
      JobsFollowGraph(s, a);
      forall id | id in Apply(s, a).table ensures !Apply(s, a).table[id].SleepsUnnotified() { ClosedStep(s, a, id); }
    }
  }
}
