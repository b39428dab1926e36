/**
  The critical sections of the claims service, one action each. A thread that
  leaves the mutex stands in a phase; any action of any thread may come next, so
  a sequence of actions is one interleaving. Results that the model does not
  compute (the network, the verifier, the output pipe, which address rotation
  picks) are arguments of the action.
*/
module ServiceSteps {
  import opened Outcomes
  import opened BudgetCutoff
  import opened ServiceState

  datatype Action =
    | Tick(now: real, reach: real)
    // Command
    | SubmitAttempt(id: JobId, domain: Domain, bounty: Bounty, target: nat, imported: Count, victim: Option<Bounty>,
                    spawn: bool)
    | SubmitResolve(id: JobId, domain: Domain, spawn: bool)
    | AcceptAdmission(revision: nat, allowed: bool)
    | WriteAdmission(revision: nat, ok: bool)
    | FinishResume(revision: nat)
    // Cancel, in its three sections, and Close
    | CancelRequest(id: JobId)
    | CancelControl(id: JobId)
    | CancelQueued(id: JobId)
    | BeginClose
    // Worker and Resolve
    | Take(attempt: bool)
    | ResolveCached(id: JobId)
    | ResolveFresh(id: JobId, endpoints: seq<Endpoint>, oldest: Option<Domain>)
    | ResolveCancelled(id: JobId)
    // Attempt and Connecting
    | Select(id: JobId, choice: Option<Endpoint>)
    | CheckStart(id: JobId)
    | EnterGate(id: JobId)
    | Wake(i: nat)
    | WriteStarted(id: JobId, ok: bool)
    | AbandonAck(i: nat)
    | GrantOrRefuse(i: nat)
    | EndCapture(id: JobId, captured: bool, cancel: bool, unreachable: Option<bool>, routeVictim: Option<Endpoint>,
                 familyVictim: Option<int>)
    | Record(id: JobId)
    | WriteCapture(id: JobId, ok: bool)
    | MarkCancelled(id: JobId)
    | Report(id: JobId)
    | RetireJob(id: JobId)
    | WriteTerminal(id: JobId, ok: bool)
    // Failures and the end of a worker's turn
    | Crash(id: JobId)
    | Fatal(id: JobId)
    | FatalSpawn
    | Leave(id: JobId)

  function Init(config: Config, start: real): Service {
    var line := Line([], 0, 0, {});
    Service(config, map[], {}, [], line, line, map[], Net(map[], map[], map[]),
            Door(0.0, true, true, 0, map[], 0, 0), Ending(false, false, false, {}, false),
            Clock(start, start), 0, 0, Log([], [], 0))
  }

  predicate GoodConfig(c: Config) {
    1 <= c.rate <= 2147483647 && 1 <= c.concurrency <= 2147483647 && c.pendingLimit == Max(512, c.concurrency + 2)
  }

  // -----------------------------------------------------------------
  // Command
  // -----------------------------------------------------------------

  /** A full budget cache gives up its oldest unused budget; with none unused the command is refused. */
  predicate OldestUnused(s: Service, bounty: Bounty) {
    bounty in s.budgets && s.budgets[bounty].users == 0 &&
    forall other :: other in s.budgets && s.budgets[other].users == 0 ==>
      s.budgets[bounty].touched <= s.budgets[other].touched
  }

  predicate CanSubmit(s: Service, id: JobId) {
    !s.end.closed && 1 <= id && s.lastId < id && |s.live| < s.config.pendingLimit
  }

  predicate CanUseBudget(s: Service, bounty: Bounty, target: nat, victim: Option<Bounty>) {
    if bounty in s.budgets then victim.None? && s.budgets[bounty].target == target
    else if |s.budgets| >= MAX_BUDGETS then victim.Some? && OldestUnused(s, victim.value)
    else victim.None?
  }

  /** The budget of a new attempt: created or reused, with the controller's count imported. */
  function Import(s: Service, bounty: Bounty, target: nat, imported: Count, victim: Option<Bounty>): Service {
    var kept := if victim.Some? then s.budgets - {victim.value} else s.budgets;
    var known := if bounty in s.budgets
      then s.budgets[bounty]
      else Budget(target, StopCount(target), imported, 0, 0, imported);
    var b := known.(successes := if known.successes >= imported then known.successes else imported,
                  users := known.users + 1, touched := s.touched + 1,
                  largestImport := if known.largestImport >= imported then known.largestImport else imported);
    s.(budgets := kept[bounty := b], touched := s.touched + 1)
  }

  predicate NoLiveAttempt(s: Service) {
    forall id :: id in s.live && id in s.table && s.table[id].attempt ==> s.table[id].Cancelled()
  }

  function NewJob(attempt: bool, domain: Domain, bounty: Bounty): Job {
    Job(attempt, domain, bounty, Queued, false, false, false, false, false, None, None, 0)
  }

  function Limit(s: Service, attempt: bool): nat {
    if attempt then s.config.concurrency else DNS_WORKERS
  }

  /** The pool is short of a worker for its demand and may still grow. */
  predicate Short(s: Service, attempt: bool, line: Line) {
    line.workers < Limit(s, attempt) && line.workers < |line.pending| + line.active
  }

  /** Register and queue a job; one worker starts when the pool is short of one. */
  function Submit(s: Service, id: JobId, j: Job, spawn: bool): Service {
    var line := s.LineOf(j.attempt);
    var queued := line.(pending := line.pending + [id]);
    var short := Short(s, j.attempt, queued);
    Put(s, id,
        j).(live := s.live + {id}, lastId := id, end := s.end.(spawnFailed := s.end.spawnFailed || (short && !spawn)))
      .WithLine(j.attempt, if short && spawn then queued.(workers := line.workers + 1) else queued)
  }

  function DoSubmitAttempt(s: Service, id: JobId, domain: Domain, bounty: Bounty, target: nat, imported: Count,
                           victim: Option<Bounty>, spawn: bool): Service {
    var s1 := BudgetChanged(Import(s, bounty, target, imported, victim), bounty);
    var s2 := s1.(door := s.door.(idle := s.door.idle || NoLiveAttempt(s)));
    Submit(s2, id, NewJob(true, domain, bounty), spawn)
  }

  function DoAcceptAdmission(s: Service, revision: nat, allowed: bool): Service {
    var door := s.door.(revision := revision, admissions := s.door.admissions[revision := Unacknowledged(allowed)]);
    if allowed then s.(lastId := revision, door := door)
    else NotifyGate(s.(lastId := revision, door := door.(allowed := false, lastPause := revision)))
  }

  function Emit(s: Service, f: Frame): Service {
    s.(log := s.log.(frames := s.log.frames + [f]))
  }

  function Fail(s: Service): Service {
    s.(end := s.end.(failed := true))
  }

  function DoWriteAdmission(s: Service, revision: nat, ok: bool): Service
    requires revision in s.door.admissions && s.door.admissions[revision].Unacknowledged?
  {
    var allowed := s.door.admissions[revision].allowed;
    var door := s.door.(admissions :=
      if ok && allowed then s.door.admissions[revision := Acknowledged] else s.door.admissions - {revision});
    if ok then Emit(s.(door := door), Admission(revision, allowed)) else Fail(s.(door := door))
  }

  function DoFinishResume(s: Service, revision: nat): Service {
    var door := s.door.(admissions := s.door.admissions - {revision});
    if !s.end.closed && !s.end.failed && s.door.revision == revision then
      NotifyGate(s.(door := door.(next := if door.allowed then door.next else MaxReal(door.next, s.clock.now),
                                  allowed := true, openedBy := revision)))
    else s.(door := door)
  }

  function DoCancelQueued(s: Service, id: JobId): Service
    requires id in s.table
  {
    var s1 := s.(end := s.end.(closing := s.end.closing - {id}));
    var j := s.table[id];
    if id in s.live && !j.running then
      var snapshot := if j.attempt && j.bounty in s.budgets then Some(s.budgets[j.bounty].successes) else None;
      Put(Retire(s1, id), id, j.(successes := snapshot, phase := Retired(snapshot)))
    else s1
  }

  function DoShut(s: Service): Service {
    CancelAll(s.(end := s.end.(closed := true)))
  }

  function DoBeginClose(s: Service): Service {
    var shut := DoShut(s);
    shut.(end := shut.end.(shutdown := true, closing := s.live))
  }

  // -----------------------------------------------------------------
  // Worker and Resolve
  // -----------------------------------------------------------------

  function DoTake(s: Service, attempt: bool): Service
    requires s.LineOf(attempt).pending != [] && s.LineOf(attempt).pending[0] in s.table
  {
    var line := s.LineOf(attempt);
    var id := line.pending[0];
    Put(s, id, s.table[id].(phase := Taken, running := true))
      .WithLine(attempt, line.(pending := line.pending[1..], active := line.active + 1, busy := line.busy + {id}))
  }

  predicate OldestDns(m: map<Domain, DnsEntry>, d: Domain) {
    d in m && forall other :: other in m ==> m[d].touched <= m[other].touched
  }

  function StoreDns(s: Service, domain: Domain, endpoints: seq<Endpoint>): map<Domain, DnsEntry> {
    s.net.dns[domain := DnsEntry(endpoints, s.clock.now + if endpoints == [] then 2.0 else 60.0, s.touched + 1)]
  }

  predicate CanStoreDns(s: Service, domain: Domain, endpoints: seq<Endpoint>, oldest: Option<Domain>) {
    var m := StoreDns(s, domain, endpoints);
    |endpoints| <= MAX_ENDPOINTS &&
    if |m| > MAX_DNS then oldest.Some? && OldestDns(m, oldest.value) else oldest.None?
  }

  function DoResolveFresh(s: Service, id: JobId, endpoints: seq<Endpoint>, oldest: Option<Domain>): Service
    requires id in s.table
  {
    var m := StoreDns(s, s.table[id].domain, endpoints);
    var kept := if oldest.Some? then m - {oldest.value} else m;
    SetPhase(s.(net := s.net.(dns := kept), touched := s.touched + 1), id, Reporting(None))
  }

  function DoResolveCached(s: Service, id: JobId): Service
    requires id in s.table && s.table[id].domain in s.net.dns
  {
    SetPhase(TouchDns(s, s.table[id].domain), id, Reporting(None))
  }

  function TouchDns(s: Service, d: Domain): Service
    requires d in s.net.dns
  {
    s.(net := s.net.(dns := s.net.dns[d := s.net.dns[d].(touched := s.touched + 1)]), touched := s.touched + 1)
  }

  // -----------------------------------------------------------------
  // Attempt
  // -----------------------------------------------------------------

  predicate Selectable(s: Service, domain: Domain, e: Endpoint) {
    domain in s.net.dns && s.net.dns[domain].expires > s.clock.now && e in s.net.dns[domain].endpoints &&
    EndpointAvailable(s, e)
  }

  predicate NothingSelectable(s: Service, domain: Domain) {
    domain in s.net.dns && s.net.dns[domain].expires > s.clock.now ==>
      forall e :: e in s.net.dns[domain].endpoints ==> !EndpointAvailable(s, e)
  }

  function DoSelect(s: Service, id: JobId, choice: Option<Endpoint>): Service
    requires id in s.table && (choice.Some? ==> s.table[id].domain in s.net.dns)
  {
    var j := s.table[id];
    if j.Cancelled() then SetPhase(s, id, Judging(true))
    else match choice
      case None => SetPhase(s, id, Judging(false))
      case Some(e) =>
        Put(TouchDns(s, j.domain), id, j.(endpoint := Some(e), phase := Selected))
  }

  function DoCheckStart(s: Service, id: JobId): Service
    requires id in s.table
  {
    match Refused(s, s.table[id])
    case None => SetPhase(s, id, Capturing)
    case Some(why) => SetPhase(s, id, Judging(why.Shutdown?))
  }

  // -----------------------------------------------------------------
  // Connecting
  // -----------------------------------------------------------------

  /** Leaving Connecting by an exception: the gate is handed on while the exception unwinds. */
  function Refuse(s: Service, i: nat, why: Refusal): Service
    requires i < |s.gate| && s.gate[i] in s.table
  {
    SetPhase(Release(s, i), s.gate[i], Ended(false, why.Shutdown?))
  }

  /** One turn of the loop in Connecting, for the job at index i of the gate. */
  function Turn(s: Service, i: nat): Service
    requires i < |s.gate| && s.gate[i] in s.table
  {
    var id := s.gate[i];
    var why := Refused(s, s.table[id]);
    if why.Some? then Refuse(s, i, why.value)
    else if !s.door.allowed || i != 0 then SetPhase(s, id, Waiting(Untimed(false)))
    else if s.door.next <= s.clock.now then Put(s, id, s.table[id].(phase := Acking, started := true))
    else SetPhase(s, id, Waiting(Timed(false, s.door.next)))
  }

  /** insert at the end of connection_pending. */
  function Arrived(s: Service, id: JobId): Service
    requires id in s.table
  {
    Put(s, id, s.table[id].(ticket := s.log.arrivals, phase := Waiting(Untimed(false))))
      .(gate := s.gate + [id], log := s.log.(arrivals := s.log.arrivals + 1))
  }

  /** Arrival and the first turn of the loop happen under one lock. */
  function DoEnterGate(s: Service, id: JobId): Service
    requires id in s.table
  {
    Turn(Arrived(s, id), |s.gate|)
  }

  function DoWriteStarted(s: Service, id: JobId, ok: bool): Service
    requires id in s.table
  {
    if ok then Emit(SetPhase(s, id, Acked), Started(id)) else Fail(SetPhase(s, id, AckFailed))
  }

  function Grant(s: Service, i: nat): Service
    requires i < |s.gate| && s.gate[i] in s.table && s.config.rate >= 1
  {
    var id := s.gate[i];
    var s1 := s.(door := s.door.(next := Advance(s.door.next, s.clock.now, s.config.rate, s.door.idle), idle := false),
                 log := s.log.(permits := s.log.permits + [Permit(id, s.table[id].ticket, s.clock.now)]));
    SetPhase(Release(s1, i), id, Connected)
  }

  function DoAbandonAck(s: Service, i: nat): Service
    requires i < |s.gate| && s.gate[i] in s.table
  {
    SetPhase(Release(s, i), s.gate[i], Crashed)
  }

  function DoGrantOrRefuse(s: Service, i: nat): Service
    requires i < |s.gate| && s.gate[i] in s.table && s.config.rate >= 1
  {
    var id := s.gate[i];
    var why := Refused(s, s.table[id]);
    if why.Some? then Refuse(s, i, why.value)
    else if !s.door.allowed then
      Refuse(Put(s, id, s.table[id].(cancelRequested := true)), i, Shutdown)
    else Grant(s, i)
  }

  function DoEndCapture(s: Service, id: JobId, captured: bool, cancel: bool, unreachable: Option<bool>,
                        victim: Option<Endpoint>, familyVictim: Option<int>): Service
    requires id in s.table && (unreachable.Some? ==> s.table[id].endpoint.Some?)
  {
    var j := s.table[id];
    var s1 := if unreachable.Some?
              then Exclude(s, j.endpoint.value, unreachable.value, victim, familyVictim) else s;
    Put(s1, id, j.(captured := captured, phase := Ended(j.phase.Connected?, cancel)))
  }

  function DoRecord(s: Service, id: JobId): Service
    requires id in s.table && s.table[id].phase.Ended?
  {
    var j := s.table[id];
    if j.started && j.bounty in s.budgets then
      var b := s.budgets[j.bounty];
      var b' := if j.captured && b.successes != MAX_COUNT then b.(successes := b.successes + 1) else b;
      var s1 := Put(s, id, j.(successes := Some(b'.successes), phase := Recorded(j.phase.cancel)));
      BudgetChanged(s1.(budgets := s.budgets[j.bounty := b']), j.bounty)
    else SetPhase(s, id, Judging(j.phase.cancel))
  }

  function DoWriteCapture(s: Service, id: JobId, ok: bool): Service
    requires id in s.table && s.table[id].phase.Recorded? && s.table[id].successes.Some?
  {
    var j := s.table[id];
    if ok then Emit(SetPhase(s, id, Judging(j.phase.cancel)), Capture(id, j.successes.value))
    else Fail(SetPhase(s, id, Crashed))
  }

  /** Fields: the job's own snapshot, or the shared counter when it has none. */
  function FieldCount(s: Service, j: Job): Option<Count> {
    if !j.attempt then None
    else if j.successes.Some? then j.successes
    else if j.bounty in s.budgets then Some(s.budgets[j.bounty].successes)
    else None
  }

  function DoReport(s: Service, id: JobId): Service
    requires id in s.table
  {
    SetPhase(s, id, Reporting(FieldCount(s, s.table[id])))
  }

  function DoRetireJob(s: Service, id: JobId): Service
    requires id in s.table && s.table[id].phase.Reporting?
  {
    SetPhase(Retire(s, id), id, Retired(s.table[id].phase.count))
  }

  function DoWriteTerminal(s: Service, id: JobId, ok: bool): Service
    requires id in s.table && s.table[id].phase.Retired?
  {
    var j := s.table[id];
    if ok then Emit(SetPhase(s, id, if j.running then Done else Finished), Terminal(id, j.phase.count))
    else Fail(SetPhase(s, id, if j.running then Crashed else Finished))
  }

  function DoLeave(s: Service, id: JobId): Service
    requires id in s.table
  {
    var s1 := SetPhase(Retire(s, id), id, Finished);
    s1.(tls := s1.tls.(busy := s.tls.busy - {id}), dns := s1.dns.(busy := s.dns.busy - {id}))
  }

  function DoCancelRequest(s: Service, id: JobId): Service
    requires id in s.table
  {
    Put(s, id, s.table[id].(cancelRequested := true).Notified())
  }

  function DoCancelControl(s: Service, id: JobId): Service
    requires id in s.table
  {
    Put(s, id, s.table[id].(controlCancelled := true))
  }

  function DoMarkCancelled(s: Service, id: JobId): Service
    requires id in s.table
  {
    Put(s, id, s.table[id].(controlCancelled := true, phase := Judging(false)))
  }

  function DoFatal(s: Service, id: JobId): Service
    requires id in s.table
  {
    SetPhase(DoShut(Fail(s)), id, Doomed)
  }

  // -----------------------------------------------------------------
  // The transition relation
  // -----------------------------------------------------------------

  ghost function When(can: bool, t: Service): Option<Service> {
    if can then Some(t) else None
  }

  predicate At(s: Service, id: JobId, p: Phase) {
    id in s.table && s.table[id].phase == p
  }

  /** A job stands at index i of the gate. */
  predicate Stands(s: Service, i: nat) {
    i < |s.gate| && s.gate[i] in s.table
  }

  /** A worker that holds no job finds one in its queue. */
  predicate CanTake(s: Service, attempt: bool) {
    var line := s.LineOf(attempt);
    !s.end.closed && line.pending != [] && line.pending[0] in s.table && |line.busy| < line.workers
  }

  ghost predicate CanSelect(s: Service, id: JobId, choice: Option<Endpoint>) {
    At(s, id, Taken) && s.table[id].attempt &&
    if choice.Some?
    then Selectable(s, s.table[id].domain, choice.value)
    else NothingSelectable(s, s.table[id].domain) || s.table[id].Cancelled()
  }

  ghost predicate CanEndCapture(s: Service, id: JobId, captured: bool, cancel: bool, unreachable: Option<bool>,
                                victim: Option<Endpoint>, familyVictim: Option<int>) {
    (At(s, id, Capturing) || At(s, id, Connected)) && s.table[id].endpoint.Some? &&
    (captured ==> !cancel && unreachable.None?) && (unreachable.Some? ==> !cancel) &&
    (unreachable.Some? ==> VictimsChosen(s, s.table[id].endpoint.value, unreachable.value, victim, familyVictim))
  }

  /** The state after an action, if the action can happen. */
  ghost function Step(s: Service, a: Action): Option<Service> {
    match a
    case Tick(now, reach) => When(s.clock.now <= now && s.clock.reach <= reach, s.(clock := Clock(now, reach)))
    case SubmitAttempt(id, domain, bounty, target, imported, victim, spawn) =>
      When(CanSubmit(s, id) && CanUseBudget(s, bounty, target, victim),
           DoSubmitAttempt(s, id, domain, bounty, target, imported, victim, spawn))
    case SubmitResolve(id, domain, spawn) => When(CanSubmit(s, id), Submit(s, id, NewJob(false, domain, ""), spawn))
    case AcceptAdmission(revision, allowed) =>
      When(!s.end.closed && !s.end.failed && s.lastId < revision, DoAcceptAdmission(s, revision, allowed))
    case WriteAdmission(revision, ok) =>
      if revision in s.door.admissions &&
      s.door.admissions[revision].Unacknowledged? then Some(DoWriteAdmission(s, revision, ok)) else None
    case FinishResume(revision) =>
      When(revision in s.door.admissions && s.door.admissions[revision].Acknowledged?, DoFinishResume(s, revision))
    case CancelRequest(id) => if id in s.table then Some(DoCancelRequest(s, id)) else None
    case CancelControl(id) =>
      if id in s.table && s.table[id].cancelRequested then Some(DoCancelControl(s, id)) else None
    case CancelQueued(id) =>
      if id in s.table && s.table[id].cancelRequested &&
      s.table[id].controlCancelled then Some(DoCancelQueued(s, id)) else None
    case BeginClose => When(!s.end.shutdown, DoBeginClose(s))
    case Take(attempt) => if CanTake(s, attempt) then Some(DoTake(s, attempt)) else None
    case ResolveCached(id) =>
      if At(s, id, Taken) && !s.table[id].attempt && s.table[id].domain in s.net.dns &&
         s.net.dns[s.table[id].domain].expires > s.clock.now
      then Some(DoResolveCached(s, id)) else None
    case ResolveFresh(id, endpoints, oldest) =>
      if At(s, id, Taken) && !s.table[id].attempt && CanStoreDns(s, s.table[id].domain, endpoints, oldest)
      then Some(DoResolveFresh(s, id, endpoints, oldest)) else None
    case ResolveCancelled(id) =>
      if At(s, id, Taken) && !s.table[id].attempt &&
      s.table[id].Cancelled() then Some(SetPhase(s, id, Reporting(None))) else None
    case Select(id, choice) => if CanSelect(s, id, choice) then Some(DoSelect(s, id, choice)) else None
    case CheckStart(id) => if At(s, id, Selected) then Some(DoCheckStart(s, id)) else None
    case EnterGate(id) => if At(s, id, Capturing) then Some(DoEnterGate(s, id)) else None
    case Wake(i) => if Stands(s, i) && s.table[s.gate[i]].phase.Waiting? then Some(Turn(s, i)) else None
    case WriteStarted(id, ok) => if At(s, id, Acking) then Some(DoWriteStarted(s, id, ok)) else None
    case AbandonAck(i) => if Stands(s, i) && s.table[s.gate[i]].phase.AckFailed? then Some(DoAbandonAck(s, i)) else None
    case GrantOrRefuse(i) =>
      if Stands(s, i) && s.table[s.gate[i]].phase.Acked? &&
      s.config.rate >= 1 then Some(DoGrantOrRefuse(s, i)) else None
    case EndCapture(id, captured, cancel, unreachable, victim, familyVictim) =>
      if CanEndCapture(s, id, captured, cancel, unreachable, victim, familyVictim)
      then Some(DoEndCapture(s, id, captured, cancel, unreachable, victim, familyVictim)) else None
    case Record(id) => if id in s.table && s.table[id].phase.Ended? then Some(DoRecord(s, id)) else None
    case WriteCapture(id, ok) =>
      if id in s.table && s.table[id].phase.Recorded? &&
      s.table[id].successes.Some? then Some(DoWriteCapture(s, id, ok)) else None
    case MarkCancelled(id) => if At(s, id, Judging(true)) then Some(DoMarkCancelled(s, id)) else None
    case Report(id) => if At(s, id, Judging(false)) then Some(DoReport(s, id)) else None
    case RetireJob(id) => if id in s.table && s.table[id].phase.Reporting? then Some(DoRetireJob(s, id)) else None
    case WriteTerminal(id, ok) =>
      if id in s.table && s.table[id].phase.Retired? then Some(DoWriteTerminal(s, id, ok)) else None
    case Crash(id) =>
      if id in s.table &&
      (s.table[id].phase.Taken? || s.table[id].phase.Judging?) then Some(SetPhase(s, id, Crashed)) else None
    case Fatal(id) => if At(s, id, Crashed) then Some(DoFatal(s, id)) else None
    case FatalSpawn => When(s.end.spawnFailed, DoShut(Fail(s)))
    case Leave(id) => if At(s, id, Done) || At(s, id, Doomed) then Some(DoLeave(s, id)) else None
  }

  ghost predicate Enabled(s: Service, a: Action) {
    Step(s, a).Some?
  }

  /** The state after an action; one that cannot happen changes nothing. */
  ghost function Apply(s: Service, a: Action): Service {
    match Step(s, a)
    case Some(t) => t
    case None => s
  }
}
