/**
  Jobs over whole runs: they are taken in the order of their ids, a cancelled one never gets a permit, a closed service
  has asked all of them to cancel, and what is reported about a capture is the count just after it was recorded.
*/
module ServiceOrder {
  import opened Outcomes
  import opened BudgetCutoff
  import opened ServiceState
  import opened ServiceSteps
  import opened ServiceActions
  import opened ServiceShape
  import opened ServiceGraph
  import opened ServiceRecords
  import opened ServiceAdmission
  import opened ServicePermits
  import opened ServiceRuns
  import opened ServiceLedger

  // -----------------------------------------------------------------
  // Taking
  // -----------------------------------------------------------------

  /** Whoever is queued in a pool, now or later, has a greater id. */
  ghost predicate Behind(s: Service, attempt: bool, n: nat) {
    n <= s.lastId && forall id :: id in s.LineOf(attempt).pending ==> id > n
  }

  lemma IdsGrow(s: Service, a: Action)
    requires Possible(s, a)
    ensures s.lastId <= Apply(s, a).lastId
  {
    hide Apply;
    hide Enabled;
    hide Submit;
    hide StopCount;
    StaysWithin(s, a);
    match a
    case SubmitAttempt(id, domain, bounty, target, imported, victim, spawn) => Enlists(s, a);
    case SubmitResolve(id, domain, spawn) => Enlists(s, a);
    case AcceptAdmission(r, allowed) => OnAcceptAdmission(s, r, allowed);
    case _ =>
  }

  /** A new job gets the greatest id, and goes to the end of the queue of its pool. */
  lemma Enlists(s: Service, a: Action)
    requires Possible(s, a) && (a.SubmitAttempt? || a.SubmitResolve?)
    ensures s.lastId < a.id == Apply(s, a).lastId
    ensures Apply(s, a).LineOf(a.SubmitAttempt?).pending == s.LineOf(a.SubmitAttempt?).pending + [a.id]
    ensures Apply(s, a).LineOf(!a.SubmitAttempt?).pending == s.LineOf(!a.SubmitAttempt?).pending
  {
    hide Apply;
    hide Enabled;
    hide StopCount;
    hide Short;
    hide NoLiveAttempt;
    if a.SubmitAttempt? { OnSubmitAttempt(s, a.id, a.domain, a.bounty, a.target, a.imported, a.victim, a.spawn); }
    else { OnSubmitResolve(s, a.id, a.domain, a.spawn); }
  }

  lemma LinesStay(s: Service, a: Action)
    requires Possible(s, a) && !a.SubmitAttempt? && !a.SubmitResolve? && !a.Take?
    requires !a.CancelQueued? && !a.RetireJob? && !a.Leave?
    ensures Apply(s, a).live == s.live && Apply(s, a).tls == s.tls && Apply(s, a).dns == s.dns
  {
    hide Apply;
    hide Possible;
    StaysWithin(s, a);
  }

  /** Retiring takes jobs out of queues. */
  lemma RetiringQueue(s: Service, a: Action, attempt: bool)
    requires Increasing(s.tls.pending) && Increasing(s.dns.pending)
    requires Possible(s, a) && (a.CancelQueued? || a.RetireJob? || a.Leave?)
    ensures forall id :: id in Apply(s, a).LineOf(attempt).pending ==> id in s.LineOf(attempt).pending
  {
    hide Apply;
    hide Enabled;
    hide Retire;
    hide Increasing;
    if a.CancelQueued? {
      OnCancelQueued(s, a.id);
    } else if a.RetireJob? {
      OnRetireJob(s, a.id);
    } else {
      OnLeave(s, a.id);
    }
    RetiredQueue(s, a.id, attempt);
  }

  /** Nobody else enters a queue. */
  lemma QueueStep(s: Service, a: Action, attempt: bool)
    requires Shape(s) && Possible(s, a) && !a.SubmitAttempt? && !a.SubmitResolve?
    ensures forall id :: id in Apply(s, a).LineOf(attempt).pending ==> id in s.LineOf(attempt).pending
  {
    hide Shape;
    hide Apply;
    hide Possible;
    hide Increasing;
    Queues(s);
    if a.Take? { OnTake(s, a.attempt); }
    else if a.CancelQueued? || a.RetireJob? || a.Leave? { RetiringQueue(s, a, attempt); }
    else { LinesStay(s, a); }
  }

  lemma Queues(s: Service)
    requires Shape(s)
    ensures Increasing(s.tls.pending) && Increasing(s.dns.pending)
  {
    assert LineShape(s, true) && LineShape(s, false);
  }

  lemma RetiredQueue(s: Service, id: JobId, attempt: bool)
    requires id in s.table && Increasing(s.tls.pending) && Increasing(s.dns.pending)
    ensures forall x :: x in Retire(s, id).LineOf(attempt).pending ==> x in s.LineOf(attempt).pending
    ensures forall end :: Retire(s.(end := end), id).LineOf(attempt) == Retire(s, id).LineOf(attempt)
  {
    EraseMembers(s.tls.pending, id);
    EraseMembers(s.dns.pending, id);
    hide Erase;
    hide Unuse;
  }

  lemma BehindKept(s: Service, a: Action, attempt: bool, n: nat)
    requires Shape(s) && Behind(s, attempt, n) && Possible(s, a)
    ensures Behind(Apply(s, a), attempt, n)
  {
    hide Apply;
    hide Possible;
    hide Shape;
    IdsGrow(s, a);
    if a.SubmitAttempt? || a.SubmitResolve? { Enlists(s, a); } else { QueueStep(s, a, attempt); }
  }

  lemma TakenBehind(s: Service, attempt: bool)
    requires Shape(s) && Possible(s, Take(attempt))
    ensures s.LineOf(attempt).pending != [] &&
            Behind(Apply(s, Take(attempt)), attempt, s.LineOf(attempt).pending[0])
  {
    Queues(s);
    hide Apply;
    hide Enabled;
    OnTake(s, attempt);
    var line := s.LineOf(attempt);
    assert line.pending[0] in s.table && JobShape(s, line.pending[0]);
    hide Shape;
    forall id | id in line.pending[1..] ensures id > line.pending[0] {
      var k :| 0 <= k < |line.pending[1..]| && line.pending[1..][k] == id;
      assert line.pending[k + 1] == id;
    }
  }

  lemma {:induction false} BehindSince(states: seq<Service>, actions: seq<Action>, config: Config, start: real, i: nat,
                                       k: nat, attempt: bool, n: nat)
    requires Run(states, actions, config, start) && i <= k < |states| && Behind(states[i], attempt, n)
    ensures Behind(states[k], attempt, n)
    decreases k
  {
    hide Apply;
    hide Possible;
    hide Behind;
    hide Sound;
    hide Shape;
    hide Records;
    hide AdmissionOk;
    hide Paced;
    LengthOf(states, actions, config, start);
    if i < k {
      BehindSince(states, actions, config, start, i, k - 1, attempt, n);
      StepOf(states, actions, config, start, k - 1);
      RunSound(states, actions, config, start, k - 1);
      SoundParts(states[k - 1]);
      BehindKept(states[k - 1], actions[k - 1], attempt, n);
    }
  }

  /** Theorem: a pool takes its jobs in the order in which they were submitted. */
  lemma TakenInOrder(states: seq<Service>, actions: seq<Action>, config: Config, start: real, i: nat, k: nat,
                     attempt: bool)
    requires Run(states, actions, config, start) && i < k < |actions|
    requires actions[i] == Take(attempt) && actions[k] == Take(attempt)
    ensures |states| == |actions| + 1
    ensures states[i].LineOf(attempt).pending != [] && states[k].LineOf(attempt).pending != [] &&
            states[i].LineOf(attempt).pending[0] < states[k].LineOf(attempt).pending[0]
  {
    hide Apply;
    hide Possible;
    hide Sound;
    hide Shape;
    hide Records;
    hide AdmissionOk;
    hide Paced;
    StepOf(states, actions, config, start, i);
    StepOf(states, actions, config, start, k);
    RunSound(states, actions, config, start, i);
    SoundParts(states[i]);
    TakenBehind(states[i], attempt);
    TakesHead(states[k], attempt);
    BehindSince(states, actions, config, start, i + 1, k, attempt, states[i].LineOf(attempt).pending[0]);
  }

  lemma TakesHead(s: Service, attempt: bool)
    requires Possible(s, Take(attempt))
    ensures s.LineOf(attempt).pending != [] && s.LineOf(attempt).pending[0] in s.LineOf(attempt).pending
  {
    hide Apply;
    OnTake(s, attempt);
  }

  /** Theorem: a worker is started only for a new job for which the others do not suffice, and within the limit. */
  lemma StartsWorkers(s: Service, a: Action, attempt: bool)
    requires Shape(s) && Possible(s, a)
    ensures var before, after := s.LineOf(attempt), Apply(s, a).LineOf(attempt);
            after.workers == before.workers ||
            (after.workers == before.workers + 1 && (if attempt then a.SubmitAttempt? else a.SubmitResolve?) &&
             before.workers < |after.pending| + after.active &&
             before.workers < (if attempt then s.config.concurrency else 2))
  {
    hide Shape;
    hide Apply;
    hide Possible;
    if a.SubmitAttempt? || a.SubmitResolve? { WorkerStarts(s, a); }
    else if a.Take? { OnTake(s, a.attempt); }
    else if a.CancelQueued? || a.RetireJob? || a.Leave? { WorkersStay(s, a); }
    else { LinesStay(s, a); }
  }

  lemma WorkerStarts(s: Service, a: Action)
    requires Possible(s, a) && (a.SubmitAttempt? || a.SubmitResolve?)
    ensures var attempt := a.SubmitAttempt?; var before, after := s.LineOf(attempt), Apply(s, a).LineOf(attempt);
            Apply(s, a).LineOf(!attempt).workers == s.LineOf(!attempt).workers &&
            (after.workers == before.workers ||
             (after.workers == before.workers + 1 && before.workers < |after.pending| + after.active &&
              before.workers < (if attempt then s.config.concurrency else 2)))
  {
    hide Apply;
    hide Enabled;
    hide StopCount;
    hide NoLiveAttempt;
    if a.SubmitAttempt? { OnSubmitAttempt(s, a.id, a.domain, a.bounty, a.target, a.imported, a.victim, a.spawn); }
    else { OnSubmitResolve(s, a.id, a.domain, a.spawn); }
  }

  lemma WorkersStay(s: Service, a: Action)
    requires Possible(s, a) && (a.CancelQueued? || a.RetireJob? || a.Leave?)
    ensures Apply(s, a).tls.workers == s.tls.workers && Apply(s, a).dns.workers == s.dns.workers
  {
    hide Apply;
    hide Enabled;
    hide Unuse;
    hide Erase;
    if a.CancelQueued? {
      OnCancelQueued(s, a.id);
    } else if a.RetireJob? {
      OnRetireJob(s, a.id);
    } else {
      OnLeave(s, a.id);
    }
  }

  // -----------------------------------------------------------------
  // Cancelling
  // -----------------------------------------------------------------

  /** Theorem: once a job has been asked to cancel, it never gets a permit. */
  lemma CancelHolds(states: seq<Service>, actions: seq<Action>, config: Config, start: real, i: nat, k: nat, id: JobId)
    requires Run(states, actions, config, start) && i < k < |actions| && actions[i] == CancelRequest(id)
    requires k + 1 < |states| && states[k + 1].log.permits != states[k].log.permits
    ensures states[k].gate != [] && states[k].gate[0] != id
  {
    hide Apply;
    hide Possible;
    hide Sound;
    hide Shape;
    hide Records;
    hide AdmissionOk;
    hide Paced;
    hide Run;
    LengthOf(states, actions, config, start);
    StepOf(states, actions, config, start, i);
    CancelFlag(states[i], id);
    StepOf(states, actions, config, start, k);
    RanksGrow(states, actions, config, start, i + 1, k, id);
    RunSound(states, actions, config, start, k);
    SoundParts(states[k]);
    GrantUncancelled(states[k], actions[k]);
  }

  lemma CancelFlag(s: Service, id: JobId)
    requires Possible(s, CancelRequest(id))
    ensures id in Apply(s, CancelRequest(id)).table && Apply(s, CancelRequest(id)).table[id].cancelRequested
  {
    hide Apply;
    hide Enabled;
    OnCancelRequest(s, id);
  }

  lemma GrantUncancelled(s: Service, a: Action)
    requires Shape(s) && Possible(s, a) && Apply(s, a).log.permits != s.log.permits
    ensures s.gate != [] && s.gate[0] in s.table && !s.table[s.gate[0]].cancelRequested
  {
    hide Apply;
    hide Possible;
    hide Shape;
    GrantIsSafe(s, a);
  }

  /** A service that has begun to close has asked every registered job to cancel. */
  lemma CloseCancels(s: Service, a: Action)
    requires Possible(s, a) && (a.BeginClose? || a.Fatal? || a.FatalSpawn?)
    ensures var t := Apply(s, a);
            t.end.closed && t.live == s.live && forall id :: id in t.live && id in t.table ==>
              t.table[id].cancelRequested
  {
    hide Apply;
    hide Enabled;
    match a
    case BeginClose => OnBeginClose(s);
    case Fatal(id) => OnFatal(s, id);
    case FatalSpawn => OnFatalSpawn(s);
  }

  /** Theorem: from a close on, every job that is still registered has been asked to cancel. */
  lemma {:induction false} ClosedCancels(states: seq<Service>, actions: seq<Action>, config: Config,
                                         start: real, k: nat, id: JobId)
    requires Run(states, actions, config, start) && k < |states| && states[k].end.closed
    requires id in states[k].live && id in states[k].table
    ensures states[k].table[id].cancelRequested
    decreases k
  {
    hide Apply;
    hide Possible;
    hide Sound;
    hide Shape;
    hide Records;
    hide AdmissionOk;
    hide Paced;
    LengthOf(states, actions, config, start);
    if k > 0 {
      var s, a := states[k - 1], actions[k - 1];
      StepOf(states, actions, config, start, k - 1);
      RunSound(states, actions, config, start, k - 1);
      SoundParts(s);
      EndKept(s, a);
      if a.BeginClose? || a.Fatal? || a.FatalSpawn? {
        CloseCancels(s, a);
      } else {
        NobodyNew(s, a);
        ClosedCancels(states, actions, config, start, k - 1, id);
        RecordsStay(s, a);
      }
    }
  }

  lemma OnlyOpen(s: Service, a: Action)
    requires Possible(s, a) && (a.SubmitAttempt? || a.SubmitResolve? || a.Take?)
    ensures !s.end.closed
  {
    hide Apply;
    hide CanUseBudget;
  }

  lemma RetiringShrinks(s: Service, a: Action)
    requires Possible(s, a) && (a.CancelQueued? || a.RetireJob? || a.Leave?)
    ensures Apply(s, a).live <= s.live
  {
    hide Apply;
    hide Enabled;
    hide Vacate;
    hide Unuse;
    if a.CancelQueued? {
      OnCancelQueued(s, a.id);
    } else if a.RetireJob? {
      OnRetireJob(s, a.id);
    } else {
      OnLeave(s, a.id);
    }
  }

  /** Nobody registers with a closed service. */
  lemma NobodyNew(s: Service, a: Action)
    requires Shape(s) && Possible(s, a) && s.end.closed
    ensures forall id :: id in Apply(s, a).live ==> id in s.live && id in s.table
  {
    assert s.live <= s.table.Keys;
    hide Shape;
    hide Apply;
    hide Possible;
    if a.SubmitAttempt? || a.SubmitResolve? || a.Take? { OnlyOpen(s, a); }
    else if a.CancelQueued? || a.RetireJob? || a.Leave? { RetiringShrinks(s, a); }
    else { LinesStay(s, a); }
  }

  // -----------------------------------------------------------------
  // Reporting
  // -----------------------------------------------------------------

  /** An outcome that is recorded is what the job remembers. */
  lemma RecordRemembers(s: Service, id: JobId)
    requires Possible(s, Record(id))
    ensures id in s.table && id in Apply(s, Record(id)).table
    ensures var t := Apply(s, Record(id));
            t.table[id].phase.Recorded? ==>
              s.table[id].bounty in t.budgets &&
              t.table[id].successes == Some(t.budgets[s.table[id].bounty].successes)
  {
    hide Apply;
    hide Enabled;
    OnRecord(s, id);
  }

  /** A job that is about to report its capture has remembered the count since it was recorded. */
  lemma {:induction false} RememberedSince(states: seq<Service>, actions: seq<Action>, config: Config, start: real,
                                           k: nat, id: JobId) returns (m: nat)
    requires Run(states, actions, config, start) && k < |states| && id in states[k].table
    requires states[k].table[id].phase.Recorded?
    ensures |states| == |actions| + 1 && m < k && actions[m] == Record(id) && id in states[m].table
    ensures var b := states[m].table[id].bounty;
            b in states[m + 1].budgets &&
            states[k].table[id].successes == Some(states[m + 1].budgets[b].successes)
    decreases k
  {
    hide Apply;
    hide Possible;
    hide Sound;
    hide Shape;
    hide Records;
    hide AdmissionOk;
    hide Paced;
    LengthOf(states, actions, config, start);
    if k == 0 {
      assert false;
    } else {
      var s, a := states[k - 1], actions[k - 1];
      StepOf(states, actions, config, start, k - 1);
      RunSound(states, actions, config, start, k - 1);
      SoundParts(s);
      FollowsGraph(s, a, id);
      if a == Record(id) {
        m := k - 1;
        RecordRemembers(s, id);
      } else {
        RecordedStays(s, a, id);
        m := RememberedSince(states, actions, config, start, k - 1, id);
      }
    }
  }

  lemma RecordedStays(s: Service, a: Action, id: JobId)
    requires Possible(s, a) && id in s.table && Follows(s, Apply(s, a), a, id)
    requires Apply(s, a).table[id].phase.Recorded? && a != Record(id)
    ensures s.table[id].phase.Recorded? && s.table[id].successes == Apply(s, a).table[id].successes
  {
    hide Apply;
    hide Possible;
    var j, k := s.table[id], Apply(s, a).table[id];
    if !Still(j, k) { RecordedEdge(s, a, id, k); }
  }

  /** Only recording leads there. */
  lemma RecordedEdge(s: Service, a: Action, id: JobId, k: Job)
    requires id in s.table && Serves(s, a, id) && Edge(a, s.table[id], k) && k.phase.Recorded?
    ensures a == Record(id)
  {
    hide TurnEdge;
    assert !EarlyEdge(a, s.table[id], k);
    assert !FinalEdge(a, s.table[id], k);
    GateNotRecorded(a, s.table[id], k);
  }

  lemma GateNotRecorded(a: Action, j: Job, k: Job)
    requires k.phase.Recorded?
    ensures !GateEdge(a, j, k)
  {
  }

  /**
    Theorem: the count that a capture frame reports is the count of its bounty just after the capture was recorded, a
    capture of a started job having raised it by one unless it was full.
  */
  lemma ReportsCount(states: seq<Service>, actions: seq<Action>, config: Config, start: real, k: nat, id: JobId)
    returns (m: nat)
    requires Run(states, actions, config, start) && k < |actions| && actions[k] == WriteCapture(id, true)
    ensures |states| == |actions| + 1 && m < k && actions[m] == Record(id) && id in states[m].table
    ensures var b := states[m].table[id].bounty;
            b in states[m + 1].budgets &&
            states[k + 1].log.frames == states[k].log.frames + [Capture(id, states[m + 1].budgets[b].successes)]
  {
    hide Apply;
    hide Possible;
    LengthOf(states, actions, config, start);
    StepOf(states, actions, config, start, k);
    Reported(states[k], id);
    m := RememberedSince(states, actions, config, start, k, id);
  }

  lemma Reported(s: Service, id: JobId)
    requires Possible(s, WriteCapture(id, true))
    ensures id in s.table && s.table[id].phase.Recorded? && s.table[id].successes.Some?
    ensures Apply(s, WriteCapture(id, true)).log.frames ==
            s.log.frames + [Capture(id, s.table[id].successes.value)]
  {
    hide Apply;
    hide Enabled;
    OnWriteCapture(s, id, true);
  }

  // -----------------------------------------------------------------
  // From the capture to the count
  // -----------------------------------------------------------------

  /** The end of a capture is what the job remembers of it until it is recorded. */
  lemma {:induction false} CaptureRemembered(states: seq<Service>, actions: seq<Action>, config: Config, start: real,
                                             i: nat, k: nat, id: JobId)
    requires Run(states, actions, config, start) && |states| == |actions| + 1 && i < k < |states|
    requires actions[i].EndCapture? && actions[i].id == id
    ensures id in states[i].table && id in states[k].table
    ensures states[k].table[id].captured == actions[i].captured
    ensures states[i].table[id].bounty == states[k].table[id].bounty
    decreases k
  {
    hide Apply;
    hide Possible;
    hide Sound;
    hide Shape;
    hide Records;
    hide AdmissionOk;
    hide Paced;
    hide Run;
    StepOf(states, actions, config, start, k - 1);
    RunSound(states, actions, config, start, k - 1);
    SoundParts(states[k - 1]);
    if i == k - 1 {
      CaptureEnded(states[i], actions[i]);
    } else {
      CaptureRemembered(states, actions, config, start, i, k - 1, id);
      StepOf(states, actions, config, start, i);
      CaptureEnded(states[i], actions[i]);
      RanksGrow(states, actions, config, start, i + 1, k - 1, id);
      FollowsGraph(states[k - 1], actions[k - 1], id);
      CapturedStays(states[k - 1], actions[k - 1], id);
    }
  }

  lemma CaptureEnded(s: Service, a: Action)
    requires Possible(s, a) && a.EndCapture?
    ensures a.id in s.table && a.id in Apply(s, a).table && Apply(s, a).table[a.id].captured == a.captured
    ensures Apply(s, a).table[a.id].phase.Ended? && Apply(s, a).table[a.id].bounty == s.table[a.id].bounty
    ensures Apply(s, a).table[a.id].started == s.table[a.id].started
  {
    hide Apply;
    hide Enabled;
    hide Exclude;
    OnEndCapture(s, a.id, a.captured, a.cancel, a.unreachable, a.routeVictim, a.familyVictim);
  }

  /** A capture ends once. */
  lemma CapturedStays(s: Service, a: Action, id: JobId)
    requires Possible(s, a) && id in s.table && Follows(s, Apply(s, a), a, id)
    requires Rank(s.table[id].phase) >= Rank(Ended(false, false))
    ensures Apply(s, a).table[id].captured == s.table[id].captured && Apply(s, a).table[id].bounty == s.table[id].bounty
  {
    hide Apply;
    hide Possible;
    hide Edge;
    hide Rank;
    hide Serves;
    var j, k := s.table[id], Apply(s, a).table[id];
    if !Still(j, k) { LaterKeeps(a, j, k); }
  }

  lemma LaterKeeps(a: Action, j: Job, k: Job)
    requires Edge(a, j, k) && Rank(j.phase) >= Rank(Ended(false, false))
    ensures k.captured == j.captured && k.bounty == j.bounty
  {
    hide TurnEdge;
    assert EarlyEdge(a, j, k) ==> Rank(j.phase) < Rank(Ended(false, false)) || j.phase.Taken? by { hide GateEdge; }
    GateBefore(a, j, k);
    hide GateEdge;
    if LateEdge(a, j, k) { hide FinalEdge; } else { hide LateEdge; }
  }

  lemma GateBefore(a: Action, j: Job, k: Job)
    requires Rank(j.phase) >= Rank(Ended(false, false))
    ensures !GateEdge(a, j, k)
  {
  }

  /**
    Theorem: a capture that was permitted and succeeded is counted when it is recorded, and one that did not is not.
  */
  lemma CapturesCount(states: seq<Service>, actions: seq<Action>, config: Config, start: real, i: nat, k: nat,
                      id: JobId)
    requires Run(states, actions, config, start) && |states| == |actions| + 1 && i < k < |actions|
    requires actions[i].EndCapture? && actions[i].id == id && actions[k] == Record(id)
    ensures id in states[i].table && id in states[k].table
    ensures CountsOne(states[k], actions[k], states[i].table[id].bounty) <==>
            actions[i].captured && states[k].table[id].started
    ensures states[i].table[id].phase.Connected? ==> states[k].table[id].started
  {
    hide Apply;
    hide Possible;
    hide Sound;
    hide Shape;
    hide AdmissionOk;
    hide Paced;
    hide Run;
    CaptureRemembered(states, actions, config, start, i, k, id);
    RunSound(states, actions, config, start, i);
    SoundParts(states[i]);
    assert Coherent(states[i].table[id]);
    RanksGrow(states, actions, config, start, i, k, id);
  }
}
