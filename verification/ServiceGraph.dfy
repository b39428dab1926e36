/**
  What one action does to the records of the jobs: the job it serves takes one
  edge of the phase graph, and every other job is at most notified or asked to
  cancel. A run of a job is a path in this graph.
*/
module ServiceGraph {
  import opened Outcomes
  import opened BudgetCutoff
  import opened ServiceState
  import opened ServiceSteps
  import opened ServiceActions
  import opened ServiceShape

  /** The same point of the program, perhaps with a notification added. */
  predicate SamePoint(p: Phase, q: Phase) {
    p == q || (p.Waiting? && q.Waiting? && q.sleep.notified &&
               (p.sleep.Timed? <==> q.sleep.Timed?) && (p.sleep.Timed? ==> p.sleep.deadline == q.sleep.deadline))
  }

  /** Nothing but cancellation flags and notifications. */
  predicate Still(j: Job, k: Job) {
    k == j.(cancelRequested := k.cancelRequested, controlCancelled := k.controlCancelled, phase := k.phase) &&
    (j.cancelRequested ==>
       k.cancelRequested) && (j.controlCancelled ==> k.controlCancelled) && SamePoint(j.phase, k.phase)
  }

  /** The ways a turn of the loop in Connecting can end. */
  predicate TurnEdge(j: Job, k: Job) {
    k == j.(phase := Waiting(Untimed(false))) ||
    (k.phase.Waiting? && k.phase.sleep.Timed? && !k.phase.sleep.notified && k == j.(phase := k.phase)) ||
    k == j.(phase := Acking, started := true) ||
    (k.phase.Ended? && k == j.(phase := Ended(false, k.phase.cancel)))
  }

  /** From the queue to the connect callback. */
  predicate EarlyEdge(a: Action, j: Job, k: Job) {
    match a
    case Take(_) => j.phase.Queued? && k == j.(phase := Taken, running := true)
    case CancelQueued(_) => j.phase.Queued? && k == j.(successes := k.successes, phase := Retired(k.successes))
    case ResolveCached(_) => j.phase.Taken? && k == j.(phase := Reporting(None))
    case ResolveFresh(_, _, _) => j.phase.Taken? && k == j.(phase := Reporting(None))
    case ResolveCancelled(_) => j.phase.Taken? && k == j.(phase := Reporting(None))
    case Select(_, _) => j.phase.Taken? &&
      ((k.phase.Judging? && k == j.(phase := k.phase)) ||
       (k.endpoint.Some? && k == j.(endpoint := k.endpoint, phase := Selected)))
    case CheckStart(_) => j.phase.Selected? && k == j.(phase := k.phase) && (k.phase.Capturing? || k.phase.Judging?)
    case _ => false
  }

  /** Through the connection gate and the capture. */
  predicate GateEdge(a: Action, j: Job, k: Job) {
    match a
    case EnterGate(_) => j.phase.Capturing? && TurnEdge(j.(ticket := k.ticket), k)
    case Wake(_) => j.phase.Waiting? && TurnEdge(j, k)
    case WriteStarted(_, ok) => j.phase.Acking? && k == j.(phase := if ok then Acked else AckFailed)
    case AbandonAck(_) => j.phase.AckFailed? && k == j.(phase := Crashed)
    case GrantOrRefuse(_) => j.phase.Acked? &&
      (k == j.(phase := Connected) ||
       (k.phase.Ended? && (j.cancelRequested ==> k.cancelRequested) &&
        k == j.(cancelRequested := k.cancelRequested, phase := Ended(false, k.phase.cancel))))
    case EndCapture(_, captured, cancel, _, _, _) => (j.phase.Capturing? || j.phase.Connected?) &&
      k == j.(captured := captured, phase := Ended(j.phase.Connected?, cancel))
    case _ => false
  }

  /** From the end of the capture to the terminal report. */
  predicate LateEdge(a: Action, j: Job, k: Job) {
    match a
    case Record(_) => j.phase.Ended? &&
      ((j.started && k.successes.Some? && k == j.(successes := k.successes, phase := Recorded(j.phase.cancel))) ||
       k == j.(phase := Judging(j.phase.cancel)))
    case WriteCapture(_, ok) => j.phase.Recorded? && k == j.(phase := if ok then Judging(j.phase.cancel) else Crashed)
    case MarkCancelled(_) => j.phase.Judging? && k == j.(controlCancelled := true, phase := Judging(false))
    case Report(_) =>
      j.phase.Judging? && k.phase.Reporting? && k == j.(phase := k.phase) &&
      (j.successes.Some? ==> k.phase.count == j.successes)
    case _ => false
  }

  /** From the terminal frame to the end of the worker's turn. */
  predicate FinalEdge(a: Action, j: Job, k: Job) {
    match a
    case RetireJob(_) => j.phase.Reporting? && k == j.(phase := Retired(j.phase.count))
    case WriteTerminal(_, ok) => j.phase.Retired? &&
      k == j.(phase := if j.running then (if ok then Done else Crashed) else Finished)
    case Crash(_) => (j.phase.Taken? || j.phase.Judging?) && k == j.(phase := Crashed)
    case Fatal(_) =>
      j.phase.Crashed? && k.phase.Doomed? && k == j.(phase := Doomed, cancelRequested := k.cancelRequested) &&
      (j.cancelRequested ==> k.cancelRequested)
    case Leave(_) => (j.phase.Done? || j.phase.Doomed?) && k == j.(phase := Finished)
    case _ => false
  }

  /** The edge of the phase graph that an action takes for the job it serves. */
  predicate Edge(a: Action, j: Job, k: Job) {
    EarlyEdge(a, j, k) || GateEdge(a, j, k) || LateEdge(a, j, k) || FinalEdge(a, j, k)
  }

  /** The job that an action serves. */
  predicate Serves(s: Service, a: Action, id: JobId) {
    match a
    case Take(attempt) => s.LineOf(attempt).pending != [] && id == s.LineOf(attempt).pending[0]
    case Wake(i) => i < |s.gate| && id == s.gate[i]
    case AbandonAck(i) => i < |s.gate| && id == s.gate[i]
    case GrantOrRefuse(i) => i < |s.gate| && id == s.gate[i]
    case CancelQueued(k) => id == k
    case ResolveCached(k) => id == k
    case ResolveFresh(k, _, _) => id == k
    case ResolveCancelled(k) => id == k
    case Select(k, _) => id == k
    case CheckStart(k) => id == k
    case EnterGate(k) => id == k
    case WriteStarted(k, _) => id == k
    case EndCapture(k, _, _, _, _, _) => id == k
    case Record(k) => id == k
    case WriteCapture(k, _) => id == k
    case MarkCancelled(k) => id == k
    case Report(k) => id == k
    case RetireJob(k) => id == k
    case WriteTerminal(k, _) => id == k
    case Crash(k) => id == k
    case Fatal(k) => id == k
    case Leave(k) => id == k
    case _ => false
  }

  ghost predicate Follows(s: Service, t: Service, a: Action, id: JobId)
    requires id in s.table
  {
    id in t.table && (Still(s.table[id], t.table[id]) || (Serves(s, a, id) && Edge(a, s.table[id], t.table[id])))
  }

  lemma NotifiedStill(j: Job)
    ensures Still(j, j.Notified())
  {
  }

  lemma NotifyStill(t: map<JobId, Job>, ids: set<JobId>)
    ensures Notify(t, ids).Keys == t.Keys
    ensures forall id :: id in t ==> Still(t[id], Notify(t, ids)[id])
  {
    forall id | id in t ensures Still(t[id], Notify(t, ids)[id]) { NotifiedStill(t[id]); }
  }

  /** One record replaced, the others at most notified. */
  lemma OneMoves(s: Service, t: Service, a: Action, id: JobId, ids: set<JobId>, k: Job)
    requires id in s.table && t.table == Notify(s.table, ids)[id := k]
    requires Still(s.table[id], k) || (Serves(s, a, id) && Edge(a, s.table[id], k))
    ensures forall other :: other in s.table ==> Follows(s, t, a, other)
    ensures forall other :: other in t.table ==> other in s.table
  {
    NotifyStill(s.table, ids);
    hide Edge;
    hide Serves;
    hide Still;
  }

  lemma NoneMoves(s: Service, t: Service, a: Action, ids: set<JobId>)
    requires t.table == Notify(s.table, ids)
    ensures forall other :: other in s.table ==> Follows(s, t, a, other)
    ensures forall other :: other in t.table ==> other in s.table
  {
    NotifyStill(s.table, ids);
    hide Edge;
    hide Serves;
    hide Still;
  }

  // -----------------------------------------------------------------
  // Each action
  // -----------------------------------------------------------------

  ghost predicate AllFollow(s: Service, a: Action)
  {
    (forall id :: id in s.table ==> Follows(s, Apply(s, a), a, id)) &&
    (forall id :: id in Apply(s, a).table ==>
       id in s.table || (Queues(a, id) && Apply(s, a).table[id].phase.Queued? && Fresh(Apply(s, a).table[id])))
  }

  /** The command that admits a job. */
  predicate Queues(a: Action, id: JobId) {
    match a
    case SubmitAttempt(k, _, _, _, _, _, _) => id == k
    case SubmitResolve(k, _, _) => id == k
    case _ => false
  }

  predicate Fresh(j: Job) {
    j == NewJob(j.attempt, j.domain, j.bounty)
  }

  /** One record replaced, the others at most notified, as the result of an action. */
  lemma Concludes(s: Service, a: Action, id: JobId, ids: set<JobId>, k: Job)
    requires id in s.table && Apply(s, a).table == Notify(s.table, ids)[id := k]
    requires Still(s.table[id], k) || (Serves(s, a, id) && Edge(a, s.table[id], k))
    ensures AllFollow(s, a)
  {
    hide Apply;
    hide Enabled;
    hide Edge;
    hide Serves;
    hide Still;
    OneMoves(s, Apply(s, a), a, id, ids, k);
  }

  /** One record replaced and nobody notified. */
  lemma ConcludesQuietly(s: Service, a: Action, id: JobId, k: Job)
    requires id in s.table && Apply(s, a).table == s.table[id := k]
    requires Still(s.table[id], k) || (Serves(s, a, id) && Edge(a, s.table[id], k))
    ensures AllFollow(s, a)
  {
    hide Edge;
    hide Serves;
    hide Still;
    hide Apply;
    hide Enabled;
    NotifyNobody(s.table);
    Concludes(s, a, id, {}, k);
  }

  /** One record replaced, the others cancelled and notified. */
  lemma ConcludesFrom(s: Service, a: Action, id: JobId, m: map<JobId, Job>, k: Job)
    requires m.Keys == s.table.Keys && forall other :: other in s.table ==> Still(s.table[other], m[other])
    requires id in s.table && Apply(s, a).table == m[id := k] && Serves(s, a, id) && Edge(a, s.table[id], k)
    ensures AllFollow(s, a)
  {
    hide Edge;
    hide Serves;
    hide Still;
    hide Apply;
    hide Enabled;
  }

  lemma CancelControlFollows(s: Service, id: JobId)
    requires Shape(s) && Possible(s, CancelControl(id))
    ensures AllFollow(s, CancelControl(id))
  {
    hide Apply;
    hide Enabled;
    assert s.config.rate >= 1;
    OnCancelControl(s, id);
    hide Shape;
    hide AllFollow;
    ConcludesQuietly(s, CancelControl(id), id, DoCancelControl(s, id).table[id]);
  }

  lemma CancelQueuedFollows(s: Service, id: JobId)
    requires Shape(s) && Possible(s, CancelQueued(id))
    ensures AllFollow(s, CancelQueued(id))
  {
    hide Apply;
    hide Enabled;
    assert s.config.rate >= 1;
    OnCancelQueued(s, id);
    FitsPlaces(s, id);
    hide Shape;
    hide AllFollow;
    ConcludesQuietly(s, CancelQueued(id), id, DoCancelQueued(s, id).table[id]);
  }

  lemma ResolveCachedFollows(s: Service, id: JobId)
    requires Shape(s) && Possible(s, ResolveCached(id))
    ensures AllFollow(s, ResolveCached(id))
  {
    hide Apply;
    hide Enabled;
    assert s.config.rate >= 1;
    OnResolveCached(s, id);
    hide Shape;
    hide AllFollow;
    ConcludesQuietly(s, ResolveCached(id), id, DoResolveCached(s, id).table[id]);
  }

  lemma ResolveFreshFollows(s: Service, id: JobId, endpoints: seq<Endpoint>, oldest: Option<Domain>)
    requires Shape(s) && Possible(s, ResolveFresh(id, endpoints, oldest))
    ensures AllFollow(s, ResolveFresh(id, endpoints, oldest))
  {
    hide Apply;
    hide Enabled;
    assert s.config.rate >= 1;
    OnResolveFresh(s, id, endpoints, oldest);
    hide Shape;
    hide AllFollow;
    ConcludesQuietly(s, ResolveFresh(id, endpoints, oldest), id, DoResolveFresh(s, id, endpoints, oldest).table[id]);
  }

  lemma ResolveCancelledFollows(s: Service, id: JobId)
    requires Shape(s) && Possible(s, ResolveCancelled(id))
    ensures AllFollow(s, ResolveCancelled(id))
  {
    hide Apply;
    hide Enabled;
    assert s.config.rate >= 1;
    OnResolveCancelled(s, id);
    hide Shape;
    hide AllFollow;
    ConcludesQuietly(s, ResolveCancelled(id), id, SetPhase(s, id, Reporting(None)).table[id]);
  }

  lemma SelectFollows(s: Service, id: JobId, choice: Option<Endpoint>)
    requires Shape(s) && Possible(s, Select(id, choice))
    ensures AllFollow(s, Select(id, choice))
  {
    hide Apply;
    hide Enabled;
    assert s.config.rate >= 1;
    OnSelect(s, id, choice);
    hide Shape;
    hide AllFollow;
    ConcludesQuietly(s, Select(id, choice), id, DoSelect(s, id, choice).table[id]);
  }

  lemma CheckStartFollows(s: Service, id: JobId)
    requires Shape(s) && Possible(s, CheckStart(id))
    ensures AllFollow(s, CheckStart(id))
  {
    hide Apply;
    hide Enabled;
    assert s.config.rate >= 1;
    OnCheckStart(s, id);
    hide Shape;
    hide AllFollow;
    ConcludesQuietly(s, CheckStart(id), id, DoCheckStart(s, id).table[id]);
  }

  lemma WriteStartedFollows(s: Service, id: JobId, ok: bool)
    requires Shape(s) && Possible(s, WriteStarted(id, ok))
    ensures AllFollow(s, WriteStarted(id, ok))
  {
    hide Apply;
    hide Enabled;
    assert s.config.rate >= 1;
    OnWriteStarted(s, id, ok);
    hide Shape;
    hide AllFollow;
    ConcludesQuietly(s, WriteStarted(id, ok), id, DoWriteStarted(s, id, ok).table[id]);
  }

  lemma WriteCaptureFollows(s: Service, id: JobId, ok: bool)
    requires Shape(s) && Possible(s, WriteCapture(id, ok))
    ensures AllFollow(s, WriteCapture(id, ok))
  {
    hide Apply;
    hide Enabled;
    assert s.config.rate >= 1;
    OnWriteCapture(s, id, ok);
    hide Shape;
    hide AllFollow;
    ConcludesQuietly(s, WriteCapture(id, ok), id, DoWriteCapture(s, id, ok).table[id]);
  }

  lemma MarkCancelledFollows(s: Service, id: JobId)
    requires Shape(s) && Possible(s, MarkCancelled(id))
    ensures AllFollow(s, MarkCancelled(id))
  {
    hide Apply;
    hide Enabled;
    assert s.config.rate >= 1;
    OnMarkCancelled(s, id);
    hide Shape;
    hide AllFollow;
    ConcludesQuietly(s, MarkCancelled(id), id, DoMarkCancelled(s, id).table[id]);
  }

  lemma ReportFollows(s: Service, id: JobId)
    requires Shape(s) && Possible(s, Report(id))
    ensures AllFollow(s, Report(id))
  {
    hide Apply;
    hide Enabled;
    assert s.config.rate >= 1;
    OnReport(s, id);
    hide Shape;
    hide AllFollow;
    ConcludesQuietly(s, Report(id), id, DoReport(s, id).table[id]);
  }

  lemma RetireJobFollows(s: Service, id: JobId)
    requires Shape(s) && Possible(s, RetireJob(id))
    ensures AllFollow(s, RetireJob(id))
  {
    hide Apply;
    hide Enabled;
    assert s.config.rate >= 1;
    OnRetireJob(s, id);
    hide Shape;
    hide AllFollow;
    ConcludesQuietly(s, RetireJob(id), id, DoRetireJob(s, id).table[id]);
  }

  lemma WriteTerminalFollows(s: Service, id: JobId, ok: bool)
    requires Shape(s) && Possible(s, WriteTerminal(id, ok))
    ensures AllFollow(s, WriteTerminal(id, ok))
  {
    hide Apply;
    hide Enabled;
    assert s.config.rate >= 1;
    OnWriteTerminal(s, id, ok);
    hide Shape;
    hide AllFollow;
    ConcludesQuietly(s, WriteTerminal(id, ok), id, DoWriteTerminal(s, id, ok).table[id]);
  }

  lemma CrashFollows(s: Service, id: JobId)
    requires Shape(s) && Possible(s, Crash(id))
    ensures AllFollow(s, Crash(id))
  {
    hide Apply;
    hide Enabled;
    assert s.config.rate >= 1;
    OnCrash(s, id);
    hide Shape;
    hide AllFollow;
    ConcludesQuietly(s, Crash(id), id, SetPhase(s, id, Crashed).table[id]);
  }

  lemma LeaveFollows(s: Service, id: JobId)
    requires Shape(s) && Possible(s, Leave(id))
    ensures AllFollow(s, Leave(id))
  {
    hide Apply;
    hide Enabled;
    assert s.config.rate >= 1;
    OnLeave(s, id);
    hide Shape;
    hide AllFollow;
    ConcludesQuietly(s, Leave(id), id, DoLeave(s, id).table[id]);
  }

  lemma TakeFollows(s: Service, attempt: bool)
    requires Shape(s) && Possible(s, Take(attempt))
    ensures AllFollow(s, Take(attempt))
  {
    hide Apply;
    hide Enabled;
    assert s.config.rate >= 1;
    OnTake(s, attempt);
    var a, id := Take(attempt), s.LineOf(attempt).pending[0];
    assert LineShape(s, attempt);
    FitsPlaces(s, id);
    hide Shape;
    hide AllFollow;
    var k := s.table[id].(phase := Taken, running := true);
    assert Apply(s, a).table == s.table[id := k];
    assert Edge(a, s.table[id], k) && Serves(s, a, id);
    hide Edge;
    hide Serves;
    ConcludesQuietly(s, a, id, k);
  }

  /** Leaving the gate moves one job and notifies the next head. */
  lemma ReleaseTable(s: Service, i: nat) returns (ids: set<JobId>)
    requires GateShape(s) && i < |s.gate|
    ensures Release(s, i).table == Notify(s.table, ids) && s.gate[i] !in ids
    ensures Release(s, i).table[s.gate[i]] == s.table[s.gate[i]]
  {
    WithoutMembers(s, i);
    NotifyNobody(s.table);
    var rest := Without(s.gate, i);
    if i == 0 && rest != [] {
      assert rest[0] in rest;
      ids := {rest[0]};
    } else {
      ids := {};
    }
  }

  lemma RefuseTable(s: Service, i: nat, why: Refusal) returns (ids: set<JobId>)
    requires GateShape(s) && i < |s.gate|
    ensures Refuse(s, i, why).table ==
            Notify(s.table, ids)[s.gate[i] := s.table[s.gate[i]].(phase := Ended(false, why.Shutdown?))]
  {
    ids := ReleaseTable(s, i);
    hide GateShape;
    hide Release;
  }

  /** One turn of the waiting loop, as an edge. */
  lemma TurnTable(s: Service, i: nat) returns (ids: set<JobId>, k: Job)
    requires GateShape(s) && i < |s.gate|
    ensures Turn(s, i).table == Notify(s.table, ids)[s.gate[i] := k] && TurnEdge(s.table[s.gate[i]], k)
  {
    var id := s.gate[i];
    var why := Refused(s, s.table[id]);
    hide Refused;
    if why.Some? {
      ids := RefuseTable(s, i, why.value);
      hide Refuse;
      k := s.table[id].(phase := Ended(false, why.value.Shutdown?));
    } else {
      ids := {};
      NotifyNobody(s.table);
      k := Turn(s, i).table[id];
    }
  }

  lemma TurnFollows(s: Service, i: nat)
    requires Shape(s) && Possible(s, Wake(i))
    ensures AllFollow(s, Wake(i))
  {
    hide Apply;
    hide Enabled;
    hide AllFollow;
    assert s.config.rate >= 1 && GateShape(s);
    hide Shape;
    OnWake(s, i);
    var ids, k := TurnTable(s, i);
    hide Turn;
    hide TurnEdge;
    hide GateShape;
    Concludes(s, Wake(i), s.gate[i], ids, k);
  }

  lemma EnterFollows(s: Service, id: JobId)
    requires Shape(s) && Possible(s, EnterGate(id))
    ensures AllFollow(s, EnterGate(id))
  {
    hide Apply;
    hide Enabled;
    hide AllFollow;
    assert s.config.rate >= 1;
    OnEnterGate(s, id);
    ArrivedGate(s, id);
    hide Shape;
    var s1, n := Arrived(s, id), |s.gate|;
    var ids, k := TurnTable(s1, n);
    NotifyOther(s.table, id, s1.table[id], ids, k);
    assert s1.table == s.table[id := s1.table[id]] && TurnEdge(s.table[id].(ticket := k.ticket), k) by {
      hide Turn;
      ArrivedEdge(s, id, k);
    }
    hide Turn;
    hide TurnEdge;
    hide GateShape;
    Concludes(s, EnterGate(id), id, ids, k);
  }

  lemma ArrivedGate(s: Service, id: JobId)
    requires Shape(s) && id in s.table && s.table[id].phase.Capturing?
    ensures GateShape(Arrived(s, id)) && Arrived(s, id).gate[|s.gate|] == id
  {
    Places(s, id);
    assert GateShape(s);
    hide Shape;
    GateArrives(s, Arrived(s, id), id);
  }

  lemma ArrivedEdge(s: Service, id: JobId, k: Job)
    requires id in s.table && TurnEdge(Arrived(s, id).table[id], k)
    ensures Arrived(s, id).table == s.table[id := Arrived(s, id).table[id]]
    ensures TurnEdge(s.table[id].(ticket := k.ticket), k)
  {
  }

  /** A record that is about to be replaced does not matter to a notification. */
  lemma NotifyOther(t: map<JobId, Job>, id: JobId, j: Job, ids: set<JobId>, k: Job)
    ensures Notify(t[id := j], ids)[id := k] == Notify(t, ids)[id := k]
  {
  }

  lemma AbandonFollows(s: Service, i: nat)
    requires Shape(s) && Possible(s, AbandonAck(i))
    ensures AllFollow(s, AbandonAck(i))
  {
    hide Apply;
    hide Enabled;
    hide AllFollow;
    assert s.config.rate >= 1 && GateShape(s);
    hide Shape;
    OnAbandonAck(s, i);
    var ids := ReleaseTable(s, i);
    hide Release;
    hide GateShape;
    Concludes(s, AbandonAck(i), s.gate[i], ids, s.table[s.gate[i]].(phase := Crashed));
  }

  lemma GrantedTable(s: Service, i: nat) returns (ids: set<JobId>)
    requires GateShape(s) && i < |s.gate| && s.config.rate >= 1
    ensures Grant(s, i).table == Notify(s.table, ids)[s.gate[i] := s.table[s.gate[i]].(phase := Connected)]
  {
    hide Advance;
    ids := ReleaseTable(s, i);
    hide GateShape;
  }

  /** A pause arrived while the started frame was written: the job is cancelled. */
  lemma PausedTable(s: Service, i: nat) returns (ids: set<JobId>)
    requires GateShape(s) && i < |s.gate|
    ensures var id := s.gate[i]; var j := s.table[id].(cancelRequested := true);
      Refuse(Put(s, id, j), i, Shutdown).table == Notify(s.table, ids)[id := j.(phase := Ended(false, true))]
  {
    hide Refuse;
    var id := s.gate[i];
    var j := s.table[id].(cancelRequested := true);
    var s1 := Put(s, id, j);
    assert GateShape(s1);
    hide GateShape;
    ids := RefuseTable(s1, i, Shutdown);
    NotifyOther(s.table, id, j, ids, j.(phase := Ended(false, true)));
  }

  /** The turn after the acknowledgement, as an edge. */
  lemma GrantTable(s: Service, i: nat) returns (ids: set<JobId>, k: Job)
    requires GateShape(s) && i < |s.gate| && s.table[s.gate[i]].phase.Acked? && s.config.rate >= 1
    ensures DoGrantOrRefuse(s, i).table == Notify(s.table, ids)[s.gate[i] := k] &&
            GateEdge(GrantOrRefuse(i), s.table[s.gate[i]], k)
  {
    hide Refused;
    hide Refuse;
    hide Grant;
    hide Notify;
    var j := s.table[s.gate[i]];
    var why := Refused(s, j);
    if why.Some? {
      ids := RefuseTable(s, i, why.value);
      k := j.(phase := Ended(false, why.value.Shutdown?));
    } else if !s.door.allowed {
      ids := PausedTable(s, i);
      k := j.(cancelRequested := true, phase := Ended(false, true));
    } else {
      ids := GrantedTable(s, i);
      k := j.(phase := Connected);
    }
  }

  lemma GrantFollows(s: Service, i: nat)
    requires Shape(s) && Possible(s, GrantOrRefuse(i))
    ensures AllFollow(s, GrantOrRefuse(i))
  {
    hide Apply;
    hide Enabled;
    hide AllFollow;
    assert s.config.rate >= 1 && GateShape(s);
    hide Shape;
    OnGrantOrRefuse(s, i);
    var ids, k := GrantTable(s, i);
    hide DoGrantOrRefuse;
    hide GateEdge;
    hide GateShape;
    Concludes(s, GrantOrRefuse(i), s.gate[i], ids, k);
  }

  lemma ExcludeTable(s: Service, e: Endpoint, family: bool, victim: Option<Endpoint>, familyVictim: Option<int>)
    returns (ids: set<JobId>)
    ensures Exclude(s, e, family, victim, familyVictim).table == Notify(s.table, ids)
  {
    ids := set other |
             other in s.gate && other in s.table && s.table[other].endpoint.Some? &&
             (if family then s.table[other].endpoint.value.family == e.family
              else s.table[other].endpoint.value == e);
  }

  lemma EndCaptureTable(s: Service, id: JobId, captured: bool, cancel: bool, unreachable: Option<bool>,
                        victim: Option<Endpoint>, familyVictim: Option<int>)
    returns (ids: set<JobId>, k: Job)
    requires id in s.table && (s.table[id].phase.Capturing? || s.table[id].phase.Connected?) &&
             s.table[id].endpoint.Some?
    ensures DoEndCapture(s, id, captured, cancel, unreachable, victim, familyVictim).table ==
            Notify(s.table, ids)[id := k]
    ensures GateEdge(EndCapture(id, captured, cancel, unreachable, victim, familyVictim), s.table[id], k)
  {
    hide Exclude;
    var j := s.table[id];
    k := j.(captured := captured, phase := Ended(j.phase.Connected?, cancel));
    NotifyNobody(s.table);
    ids := {};
    if unreachable.Some? {
      ids := ExcludeTable(s, j.endpoint.value, unreachable.value, victim, familyVictim);
    }
  }

  lemma EndCaptureFollows(s: Service, id: JobId, captured: bool, cancel: bool, unreachable: Option<bool>,
                          victim: Option<Endpoint>, familyVictim: Option<int>)
    requires Shape(s) && Possible(s, EndCapture(id, captured, cancel, unreachable, victim, familyVictim))
    ensures AllFollow(s, EndCapture(id, captured, cancel, unreachable, victim, familyVictim))
  {
    hide Apply;
    hide Enabled;
    hide AllFollow;
    assert s.config.rate >= 1;
    hide Shape;
    OnEndCapture(s, id, captured, cancel, unreachable, victim, familyVictim);
    hide VictimsChosen;
    var ids, k := EndCaptureTable(s, id, captured, cancel, unreachable, victim, familyVictim);
    hide DoEndCapture;
    hide GateEdge;
    Concludes(s, EndCapture(id, captured, cancel, unreachable, victim, familyVictim), id, ids, k);
  }

  /** The budget record after a capture has been counted. */
  function Counted(b: Budget, captured: bool): Budget {
    if captured && b.successes != MAX_COUNT then b.(successes := b.successes + 1) else b
  }

  lemma RecordTable(s: Service, id: JobId) returns (ids: set<JobId>, k: Job)
    requires id in s.table && s.table[id].phase.Ended?
    ensures DoRecord(s, id).table == Notify(s.table, ids)[id := k] && LateEdge(Record(id), s.table[id], k)
  {
    var j := s.table[id];
    NotifyNobody(s.table);
    ids := {};
    if j.started && j.bounty in s.budgets {
      var b' := Counted(s.budgets[j.bounty], j.captured);
      k := j.(successes := Some(b'.successes), phase := Recorded(j.phase.cancel));
      var s1 := Put(s, id, k).(budgets := s.budgets[j.bounty := b']);
      assert DoRecord(s, id) == BudgetChanged(s1, j.bounty);
      hide DoRecord;
      NotifyNobody(s1.table);
      if !BudgetBelowStop(s1, j.bounty) {
        ids := set other | other in s1.gate && other in s1.table && s1.table[other].bounty == j.bounty;
      }
      assert BudgetChanged(s1, j.bounty).table == Notify(s1.table, ids);
      hide BudgetChanged;
      assert k.Notified() == k;
      assert Notify(s1.table, ids) == Notify(s.table, ids)[id := k];
    } else {
      k := j.(phase := Judging(j.phase.cancel));
    }
  }

  lemma RecordFollows(s: Service, id: JobId)
    requires Shape(s) && Possible(s, Record(id))
    ensures AllFollow(s, Record(id))
  {
    hide Apply;
    hide Enabled;
    hide AllFollow;
    assert s.config.rate >= 1;
    hide Shape;
    OnRecord(s, id);
    var ids, k := RecordTable(s, id);
    hide DoRecord;
    hide LateEdge;
    Concludes(s, Record(id), id, ids, k);
  }

  lemma CancelRequestFollows(s: Service, id: JobId)
    requires Shape(s) && Possible(s, CancelRequest(id))
    ensures AllFollow(s, CancelRequest(id))
  {
    hide Apply;
    hide Enabled;
    assert s.config.rate >= 1;
    OnCancelRequest(s, id);
    hide Shape;
    hide AllFollow;
    var k := s.table[id].(cancelRequested := true).Notified();
    NotifiedStill(s.table[id].(cancelRequested := true));
    assert Apply(s, CancelRequest(id)).table == s.table[id := k];
    ConcludesQuietly(s, CancelRequest(id), id, k);
  }

  lemma ShutStill(s: Service)
    ensures DoShut(s).table.Keys == s.table.Keys
    ensures forall id :: id in s.table ==> Still(s.table[id], DoShut(s).table[id])
  {
    forall id | id in s.table ensures Still(s.table[id], DoShut(s).table[id]) {
      NotifiedStill(s.table[id].(cancelRequested := true));
    }
  }

  lemma BeginCloseFollows(s: Service)
    requires Shape(s) && Possible(s, BeginClose)
    ensures AllFollow(s, BeginClose)
  {
    hide Apply;
    hide Enabled;
    assert s.config.rate >= 1;
    OnBeginClose(s);
    hide Shape;
    hide AllFollow;
    ShutStill(s);
    assert Apply(s, BeginClose).table == DoShut(s).table;
    hide DoShut;
    hide Still;
  }

  lemma FatalSpawnFollows(s: Service)
    requires Shape(s) && Possible(s, FatalSpawn)
    ensures AllFollow(s, FatalSpawn)
  {
    hide Apply;
    hide Enabled;
    assert s.config.rate >= 1;
    OnFatalSpawn(s);
    hide Shape;
    hide AllFollow;
    ShutStill(Fail(s));
    assert Apply(s, FatalSpawn).table == DoShut(Fail(s)).table;
    hide DoShut;
    hide Still;
  }

  lemma FatalEdge(id: JobId, j: Job, k: Job)
    requires j.phase.Crashed? && Still(j, k) && k.controlCancelled == j.controlCancelled
    ensures Edge(Fatal(id), j, k.(phase := Doomed))
  {
  }

  lemma FatalFollows(s: Service, id: JobId)
    requires Shape(s) && Possible(s, Fatal(id))
    ensures AllFollow(s, Fatal(id))
  {
    hide Apply;
    hide Enabled;
    assert s.config.rate >= 1;
    OnFatal(s, id);
    hide Shape;
    hide AllFollow;
    var a := Fatal(id);
    var t := DoShut(Fail(s)).table;
    assert Apply(s, a) == DoFatal(s, id) && s.table[id].phase.Crashed?;
    ShutStill(Fail(s));
    var k := t[id].(phase := Doomed);
    FatalEdge(id, s.table[id], t[id]);
    hide Edge;
    ConcludesFrom(s, a, id, t, k);
  }

  lemma AdmissionFollows(s: Service, a: Action)
    requires Shape(s) && Possible(s, a) && (a.AcceptAdmission? || a.WriteAdmission? || a.FinishResume? || a.Tick?)
    ensures AllFollow(s, a)
  {
    assert s.config.rate >= 1;
    hide Shape;
    hide AllFollow;
    NotifyNobody(s.table);
    var ids := if Apply(s, a).table == s.table then {} else set id | id in s.gate;
    assert Apply(s, a).table == Notify(s.table, ids);
    hide Apply;
    hide Enabled;
    NoneMoves(s, Apply(s, a), a, ids);
  }

  lemma FreshId(s: Service, id: JobId)
    requires Shape(s) && s.lastId < id
    ensures id !in s.table
  {
    forall k | k in s.table ensures k <= s.lastId { assert JobShape(s, k); }
  }

  lemma QueuesFresh(s: Service, a: Action, id: JobId, ids: set<JobId>, k: Job)
    requires Queues(a, id) && id !in s.table
    requires Apply(s, a).table == Notify(s.table, ids)[id := k] && k.phase.Queued? && Fresh(k)
    ensures AllFollow(s, a)
  {
    hide Apply;
    hide Enabled;
    NotifyStill(s.table, ids);
    hide Still;
    hide Fresh;
  }

  lemma SubmitResolveFollows(s: Service, id: JobId, domain: Domain, spawn: bool)
    requires Shape(s) && Possible(s, SubmitResolve(id, domain, spawn))
    ensures AllFollow(s, SubmitResolve(id, domain, spawn))
  {
    hide Apply;
    hide Enabled;
    assert s.config.rate >= 1;
    OnSubmitResolve(s, id, domain, spawn);
    FreshId(s, id);
    hide Shape;
    hide AllFollow;
    NotifyNobody(s.table);
    var k := NewJob(false, domain, "");
    assert Apply(s, SubmitResolve(id, domain, spawn)).table == s.table[id := k];
    QueuesFresh(s, SubmitResolve(id, domain, spawn), id, {}, k);
  }

  lemma SubmitAttemptFollows(s: Service, a: Action)
    requires Shape(s) && Possible(s, a) && a.SubmitAttempt?
    ensures AllFollow(s, a)
  {
    FreshId(s, a.id);
    assert s.config.rate >= 1;
    hide Shape;
    hide AllFollow;
    NotifyNobody(s.table);
    var s1 := Import(s, a.bounty, a.target, a.imported, a.victim);
    var ids :=
      if BudgetBelowStop(s1, a.bounty) then {}
      else set id | id in s1.gate && id in s1.table && s1.table[id].bounty == a.bounty;
    assert BudgetChanged(s1, a.bounty).table == Notify(s.table, ids);
    hide BudgetBelowStop;
    var k := NewJob(true, a.domain, a.bounty);
    assert Apply(s, a).table == BudgetChanged(s1, a.bounty).table[a.id := k];
    hide Apply;
    hide BudgetChanged;
    hide Import;
    QueuesFresh(s, a, a.id, ids, k);
  }

  /** Theorem: in every step every job stays where it is or takes its edge of the graph. */
  lemma JobsFollowGraph(s: Service, a: Action)
    requires Shape(s) && Possible(s, a)
    ensures AllFollow(s, a)
  {
    assert s.config.rate >= 1;
    hide Shape;
    hide Enabled;
    hide AllFollow;
    match a
    case Tick(_, _) => AdmissionFollows(s, a);
    case SubmitAttempt(_, _, _, _, _, _, _) => SubmitAttemptFollows(s, a);
    case SubmitResolve(id, domain, spawn) => SubmitResolveFollows(s, id, domain, spawn);
    case AcceptAdmission(_, _) => AdmissionFollows(s, a);
    case WriteAdmission(_, _) => AdmissionFollows(s, a);
    case FinishResume(_) => AdmissionFollows(s, a);
    case CancelRequest(id) => CancelRequestFollows(s, id);
    case CancelControl(id) => CancelControlFollows(s, id);
    case CancelQueued(id) => CancelQueuedFollows(s, id);
    case BeginClose => BeginCloseFollows(s);
    case Take(attempt) => TakeFollows(s, attempt);
    case ResolveCached(id) => ResolveCachedFollows(s, id);
    case ResolveFresh(id, endpoints, oldest) => ResolveFreshFollows(s, id, endpoints, oldest);
    case ResolveCancelled(id) => ResolveCancelledFollows(s, id);
    case Select(id, choice) => SelectFollows(s, id, choice);
    case CheckStart(id) => CheckStartFollows(s, id);
    case EnterGate(id) => EnterFollows(s, id);
    case Wake(i) => TurnFollows(s, i);
    case WriteStarted(id, ok) => WriteStartedFollows(s, id, ok);
    case AbandonAck(i) => AbandonFollows(s, i);
    case GrantOrRefuse(i) => GrantFollows(s, i);
    case EndCapture(id, captured, cancel, unreachable, victim, familyVictim) =>
      EndCaptureFollows(s, id, captured, cancel, unreachable, victim, familyVictim);
    case Record(id) => RecordFollows(s, id);
    case WriteCapture(id, ok) => WriteCaptureFollows(s, id, ok);
    case MarkCancelled(id) => MarkCancelledFollows(s, id);
    case Report(id) => ReportFollows(s, id);
    case RetireJob(id) => RetireJobFollows(s, id);
    case WriteTerminal(id, ok) => WriteTerminalFollows(s, id, ok);
    case Crash(id) => CrashFollows(s, id);
    case Fatal(id) => FatalFollows(s, id);
    case FatalSpawn => FatalSpawnFollows(s);
    case Leave(id) => LeaveFollows(s, id);
  }
}
