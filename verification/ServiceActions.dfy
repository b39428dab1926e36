/** Each action by itself: when it can happen, and the section it runs. */
module ServiceActions {
  import opened Outcomes
  import opened BudgetCutoff
  import opened ServiceState
  import opened ServiceSteps

  /** An action of some thread that can happen now. */
  ghost predicate Possible(s: Service, a: Action) {
    s.config.rate >= 1 && Enabled(s, a)
  }

  lemma OnTick(s: Service, now: real, reach: real)
    requires Possible(s, Tick(now, reach))
    ensures s.clock.now <= now && s.clock.reach <= reach
    ensures Apply(s, Tick(now, reach)) == s.(clock := Clock(now, reach))
    ensures var t := Apply(s, Tick(now, reach)); t == s.(clock := t.clock)
  {
  }

  lemma OnSubmitAttempt(s: Service, id: JobId, domain: Domain, bounty: Bounty, target: nat, imported: Count,
                        victim: Option<Bounty>, spawn: bool)
    requires Possible(s, SubmitAttempt(id, domain, bounty, target, imported, victim, spawn))
    ensures CanSubmit(s, id) && CanUseBudget(s, bounty, target, victim)
    ensures Apply(s, SubmitAttempt(id, domain, bounty, target, imported, victim, spawn)) ==
            DoSubmitAttempt(s, id, domain, bounty, target, imported, victim, spawn)
    ensures var t := Apply(s, SubmitAttempt(id, domain, bounty, target, imported, victim, spawn));
            t == s.(table := t.table, live := t.live, lastId := t.lastId, end := t.end, tls := t.tls, dns := t.dns,
                    budgets := t.budgets, touched := t.touched, door := t.door)
  {
  }

  lemma OnSubmitResolve(s: Service, id: JobId, domain: Domain, spawn: bool)
    requires Possible(s, SubmitResolve(id, domain, spawn))
    ensures CanSubmit(s, id)
    ensures Apply(s, SubmitResolve(id, domain, spawn)) == Submit(s, id, NewJob(false, domain, ""), spawn)
    ensures var t := Apply(s, SubmitResolve(id, domain, spawn));
            t == s.(table := t.table, live := t.live, lastId := t.lastId, end := t.end, tls := t.tls, dns := t.dns)
  {
  }

  lemma OnAcceptAdmission(s: Service, revision: nat, allowed: bool)
    requires Possible(s, AcceptAdmission(revision, allowed))
    ensures !s.end.closed && !s.end.failed && s.lastId < revision
    ensures Apply(s, AcceptAdmission(revision, allowed)) == DoAcceptAdmission(s, revision, allowed)
    ensures var t := Apply(s, AcceptAdmission(revision, allowed));
            t == s.(table := t.table, lastId := t.lastId, door := t.door)
  {
  }

  lemma OnWriteAdmission(s: Service, revision: nat, ok: bool)
    requires Possible(s, WriteAdmission(revision, ok))
    ensures revision in s.door.admissions && s.door.admissions[revision].Unacknowledged?
    ensures Apply(s, WriteAdmission(revision, ok)) == DoWriteAdmission(s, revision, ok)
    ensures var t := Apply(s, WriteAdmission(revision, ok)); t == s.(door := t.door, log := t.log, end := t.end)
  {
  }

  lemma OnFinishResume(s: Service, revision: nat)
    requires Possible(s, FinishResume(revision))
    ensures revision in s.door.admissions && s.door.admissions[revision].Acknowledged?
    ensures Apply(s, FinishResume(revision)) == DoFinishResume(s, revision)
    ensures var t := Apply(s, FinishResume(revision)); t == s.(table := t.table, door := t.door)
  {
  }

  lemma OnCancelRequest(s: Service, id: JobId)
    requires Possible(s, CancelRequest(id))
    ensures id in s.table
    ensures Apply(s, CancelRequest(id)) == DoCancelRequest(s, id)
    ensures var t := Apply(s, CancelRequest(id)); t == s.(table := t.table)
  {
  }

  lemma OnCancelControl(s: Service, id: JobId)
    requires Possible(s, CancelControl(id))
    ensures id in s.table && s.table[id].cancelRequested
    ensures Apply(s, CancelControl(id)) == DoCancelControl(s, id)
    ensures var t := Apply(s, CancelControl(id)); t == s.(table := t.table)
  {
  }

  lemma OnCancelQueued(s: Service, id: JobId)
    requires Possible(s, CancelQueued(id))
    ensures id in s.table && s.table[id].cancelRequested && s.table[id].controlCancelled
    ensures Apply(s, CancelQueued(id)) == DoCancelQueued(s, id)
    ensures var t := Apply(s, CancelQueued(id));
            t == s.(table := t.table, live := t.live, tls := t.tls, dns := t.dns, budgets := t.budgets, end := t.end)
  {
  }

  lemma OnBeginClose(s: Service)
    requires Possible(s, BeginClose)
    ensures !s.end.shutdown
    ensures Apply(s, BeginClose) == DoBeginClose(s)
    ensures var t := Apply(s, BeginClose); t == s.(table := t.table, end := t.end)
  {
  }

  lemma OnTake(s: Service, attempt: bool)
    requires Possible(s, Take(attempt))
    ensures !s.end.closed && s.LineOf(attempt).pending != [] && s.LineOf(attempt).pending[0] in s.table &&
            |s.LineOf(attempt).busy| < s.LineOf(attempt).workers
    ensures Apply(s, Take(attempt)) == DoTake(s, attempt)
    ensures var t := Apply(s, Take(attempt)); t == s.(table := t.table, tls := t.tls, dns := t.dns)
  {
  }

  lemma OnResolveCached(s: Service, id: JobId)
    requires Possible(s, ResolveCached(id))
    ensures At(s, id, Taken) && !s.table[id].attempt && s.table[id].domain in s.net.dns
    ensures Apply(s, ResolveCached(id)) == DoResolveCached(s, id)
    ensures var t := Apply(s, ResolveCached(id)); t == s.(table := t.table, net := t.net, touched := t.touched)
  {
  }

  lemma OnResolveFresh(s: Service, id: JobId, endpoints: seq<Endpoint>, oldest: Option<Domain>)
    requires Possible(s, ResolveFresh(id, endpoints, oldest))
    ensures At(s, id, Taken) && !s.table[id].attempt && CanStoreDns(s, s.table[id].domain, endpoints, oldest)
    ensures Apply(s, ResolveFresh(id, endpoints, oldest)) == DoResolveFresh(s, id, endpoints, oldest)
    ensures var t := Apply(s, ResolveFresh(id, endpoints, oldest));
            t == s.(table := t.table, net := t.net, touched := t.touched)
  {
  }

  lemma OnResolveCancelled(s: Service, id: JobId)
    requires Possible(s, ResolveCancelled(id))
    ensures At(s, id, Taken) && !s.table[id].attempt
    ensures Apply(s, ResolveCancelled(id)) == SetPhase(s, id, Reporting(None))
    ensures var t := Apply(s, ResolveCancelled(id)); t == s.(table := t.table)
  {
  }

  lemma OnSelect(s: Service, id: JobId, choice: Option<Endpoint>)
    requires Possible(s, Select(id, choice))
    ensures At(s, id, Taken) && s.table[id].attempt && (choice.Some? ==> s.table[id].domain in s.net.dns)
    ensures Apply(s, Select(id, choice)) == DoSelect(s, id, choice)
    ensures var t := Apply(s, Select(id, choice)); t == s.(table := t.table, net := t.net, touched := t.touched)
  {
  }

  lemma OnCheckStart(s: Service, id: JobId)
    requires Possible(s, CheckStart(id))
    ensures id in s.table && s.table[id].phase.Selected?
    ensures Apply(s, CheckStart(id)) == DoCheckStart(s, id)
    ensures var t := Apply(s, CheckStart(id)); t == s.(table := t.table)
  {
  }

  lemma OnEnterGate(s: Service, id: JobId)
    requires Possible(s, EnterGate(id))
    ensures id in s.table && s.table[id].phase.Capturing?
    ensures Apply(s, EnterGate(id)) == DoEnterGate(s, id)
    ensures var t := Apply(s, EnterGate(id)); t == s.(table := t.table, gate := t.gate, log := t.log)
  {
  }

  lemma OnWake(s: Service, i: nat)
    requires Possible(s, Wake(i))
    ensures i < |s.gate| && s.gate[i] in s.table && s.table[s.gate[i]].phase.Waiting?
    ensures Apply(s, Wake(i)) == Turn(s, i)
    ensures var t := Apply(s, Wake(i)); t == s.(table := t.table, gate := t.gate)
  {
  }

  lemma OnWriteStarted(s: Service, id: JobId, ok: bool)
    requires Possible(s, WriteStarted(id, ok))
    ensures id in s.table && s.table[id].phase.Acking?
    ensures Apply(s, WriteStarted(id, ok)) == DoWriteStarted(s, id, ok)
    ensures var t := Apply(s, WriteStarted(id, ok)); t == s.(table := t.table, log := t.log, end := t.end)
  {
  }

  lemma OnAbandonAck(s: Service, i: nat)
    requires Possible(s, AbandonAck(i))
    ensures i < |s.gate| && s.gate[i] in s.table && s.table[s.gate[i]].phase.AckFailed?
    ensures Apply(s, AbandonAck(i)) == DoAbandonAck(s, i)
    ensures var t := Apply(s, AbandonAck(i)); t == s.(table := t.table, gate := t.gate)
  {
  }

  lemma OnGrantOrRefuse(s: Service, i: nat)
    requires Possible(s, GrantOrRefuse(i))
    ensures i < |s.gate| && s.gate[i] in s.table && s.table[s.gate[i]].phase.Acked?
    ensures Apply(s, GrantOrRefuse(i)) == DoGrantOrRefuse(s, i)
    ensures var t := Apply(s, GrantOrRefuse(i)); t == s.(table := t.table, gate := t.gate, door := t.door, log := t.log)
  {
  }

  lemma OnEndCapture(s: Service, id: JobId, captured: bool, cancel: bool, unreachable: Option<bool>,
                     victim: Option<Endpoint>, familyVictim: Option<int>)
    requires Possible(s, EndCapture(id, captured, cancel, unreachable, victim, familyVictim))
    ensures id in s.table && (s.table[id].phase.Capturing? || s.table[id].phase.Connected?) &&
            s.table[id].endpoint.Some? &&
            (unreachable.Some? ==>
               VictimsChosen(s, s.table[id].endpoint.value, unreachable.value, victim, familyVictim))
    ensures Apply(s, EndCapture(id, captured, cancel, unreachable, victim, familyVictim)) ==
            DoEndCapture(s, id, captured, cancel, unreachable, victim, familyVictim)
    ensures var t := Apply(s, EndCapture(id, captured, cancel, unreachable, victim, familyVictim));
            t == s.(table := t.table, net := t.net)
  {
  }

  lemma OnRecord(s: Service, id: JobId)
    requires Possible(s, Record(id))
    ensures id in s.table && s.table[id].phase.Ended?
    ensures Apply(s, Record(id)) == DoRecord(s, id)
    ensures var t := Apply(s, Record(id)); t == s.(table := t.table, budgets := t.budgets)
  {
  }

  lemma OnWriteCapture(s: Service, id: JobId, ok: bool)
    requires Possible(s, WriteCapture(id, ok))
    ensures id in s.table && s.table[id].phase.Recorded? && s.table[id].successes.Some?
    ensures Apply(s, WriteCapture(id, ok)) == DoWriteCapture(s, id, ok)
    ensures var t := Apply(s, WriteCapture(id, ok)); t == s.(table := t.table, log := t.log, end := t.end)
  {
  }

  lemma OnMarkCancelled(s: Service, id: JobId)
    requires Possible(s, MarkCancelled(id))
    ensures id in s.table && s.table[id].phase == Judging(true)
    ensures Apply(s, MarkCancelled(id)) == DoMarkCancelled(s, id)
    ensures var t := Apply(s, MarkCancelled(id)); t == s.(table := t.table)
  {
  }

  lemma OnReport(s: Service, id: JobId)
    requires Possible(s, Report(id))
    ensures id in s.table && s.table[id].phase == Judging(false)
    ensures Apply(s, Report(id)) == DoReport(s, id)
    ensures var t := Apply(s, Report(id)); t == s.(table := t.table)
  {
  }

  lemma OnRetireJob(s: Service, id: JobId)
    requires Possible(s, RetireJob(id))
    ensures id in s.table && s.table[id].phase.Reporting?
    ensures Apply(s, RetireJob(id)) == DoRetireJob(s, id)
    ensures var t := Apply(s, RetireJob(id));
            t == s.(table := t.table, live := t.live, tls := t.tls, dns := t.dns, budgets := t.budgets)
  {
  }

  lemma OnWriteTerminal(s: Service, id: JobId, ok: bool)
    requires Possible(s, WriteTerminal(id, ok))
    ensures id in s.table && s.table[id].phase.Retired?
    ensures Apply(s, WriteTerminal(id, ok)) == DoWriteTerminal(s, id, ok)
    ensures var t := Apply(s, WriteTerminal(id, ok)); t == s.(table := t.table, log := t.log, end := t.end)
  {
  }

  lemma OnCrash(s: Service, id: JobId)
    requires Possible(s, Crash(id))
    ensures id in s.table && (s.table[id].phase.Taken? || s.table[id].phase.Judging?)
    ensures Apply(s, Crash(id)) == SetPhase(s, id, Crashed)
    ensures var t := Apply(s, Crash(id)); t == s.(table := t.table)
  {
  }

  lemma OnFatal(s: Service, id: JobId)
    requires Possible(s, Fatal(id))
    ensures id in s.table && s.table[id].phase.Crashed?
    ensures Apply(s, Fatal(id)) == DoFatal(s, id)
    ensures var t := Apply(s, Fatal(id)); t == s.(table := t.table, end := t.end)
  {
  }

  lemma OnFatalSpawn(s: Service)
    requires Possible(s, FatalSpawn)
    ensures s.end.spawnFailed
    ensures Apply(s, FatalSpawn) == DoShut(Fail(s))
    ensures var t := Apply(s, FatalSpawn); t == s.(table := t.table, end := t.end)
  {
  }

  lemma OnLeave(s: Service, id: JobId)
    requires Possible(s, Leave(id))
    ensures id in s.table && (s.table[id].phase.Done? || s.table[id].phase.Doomed?)
    ensures Apply(s, Leave(id)) == DoLeave(s, id)
    ensures var t := Apply(s, Leave(id));
            t == s.(table := t.table, live := t.live, tls := t.tls, dns := t.dns, budgets := t.budgets)
  {
  }

  // -----------------------------------------------------------------
  // Footprints
  // -----------------------------------------------------------------

  predicate MovesGate(a: Action) {
    a.EnterGate? || a.Wake? || a.AbandonAck? || a.GrantOrRefuse?
  }

  predicate MovesLines(a: Action) {
    a.SubmitAttempt? || a.SubmitResolve? || a.CancelQueued? || a.Take? || a.RetireJob? || a.Leave?
  }

  predicate MovesBudgets(a: Action) {
    a.SubmitAttempt? || a.CancelQueued? || a.Record? || a.RetireJob? || a.Leave?
  }

  predicate MovesNet(a: Action) {
    a.ResolveCached? || a.ResolveFresh? || a.Select? || a.EndCapture?
  }

  predicate MovesNames(a: Action) {
    a.ResolveCached? || a.ResolveFresh? || a.Select?
  }

  predicate MovesDoor(a: Action) {
    a.SubmitAttempt? || a.AcceptAdmission? || a.WriteAdmission? || a.FinishResume? || a.GrantOrRefuse?
  }

  predicate MovesEnd(a: Action) {
    a.SubmitAttempt? || a.SubmitResolve? || a.WriteAdmission? || a.CancelQueued? || a.BeginClose? || a.WriteStarted? ||
    a.WriteCapture? || a.WriteTerminal? || a.Fatal? || a.FatalSpawn?
  }

  predicate MovesIds(a: Action) {
    a.SubmitAttempt? || a.SubmitResolve? || a.AcceptAdmission?
  }

  predicate MovesLog(a: Action) {
    a.WriteAdmission? || a.EnterGate? || a.WriteStarted? || a.GrantOrRefuse? || a.WriteCapture? || a.WriteTerminal?
  }

  predicate MovesClock(a: Action) {
    a.Tick?
  }

  /** What an action leaves alone. */
  predicate Footprint(s: Service, a: Action, t: Service) {
    t.config == s.config &&
    (!MovesGate(a) ==> t.gate == s.gate) &&
    (!MovesLines(a) ==> t.live == s.live && t.tls == s.tls && t.dns == s.dns) &&
    (!MovesBudgets(a) ==> t.budgets == s.budgets) &&
    (!MovesNet(a) ==> t.net == s.net) &&
    (!MovesDoor(a) ==> t.door == s.door) &&
    (!MovesEnd(a) ==> t.end == s.end) &&
    (!MovesIds(a) ==> t.lastId == s.lastId) &&
    (!MovesLog(a) ==> t.log == s.log) &&
    (!MovesNames(a) && !a.SubmitAttempt? ==> t.touched == s.touched) &&
    (!MovesClock(a) ==> t.clock == s.clock)
  }

  /** Every action stays within its footprint. */
  lemma StaysWithin(s: Service, a: Action)
    requires Possible(s, a)
    ensures Footprint(s, a, Apply(s, a))
  {
    hide Apply;
    hide Enabled;
    hide CanSubmit;
    hide CanUseBudget;
    hide CanStoreDns;
    hide VictimsChosen;
    hide DoSubmitAttempt;
    hide Submit;
    hide DoAcceptAdmission;
    hide DoWriteAdmission;
    hide DoFinishResume;
    hide DoCancelRequest;
    hide DoCancelControl;
    hide DoCancelQueued;
    hide DoBeginClose;
    hide DoTake;
    hide DoResolveCached;
    hide DoResolveFresh;
    hide SetPhase;
    hide DoSelect;
    hide DoCheckStart;
    hide DoEnterGate;
    hide Turn;
    hide DoWriteStarted;
    hide DoAbandonAck;
    hide DoGrantOrRefuse;
    hide DoEndCapture;
    hide DoRecord;
    hide DoWriteCapture;
    hide DoMarkCancelled;
    hide DoReport;
    hide DoRetireJob;
    hide DoWriteTerminal;
    hide DoFatal;
    hide DoShut;
    hide DoLeave;
    match a
    case Tick(now, reach) => OnTick(s, now, reach);
    case SubmitAttempt(id, domain, bounty, target, imported, victim, spawn) =>
      OnSubmitAttempt(s, id, domain, bounty, target, imported, victim, spawn);
    case SubmitResolve(id, domain, spawn) => OnSubmitResolve(s, id, domain, spawn);
    case AcceptAdmission(revision, allowed) => OnAcceptAdmission(s, revision, allowed);
    case WriteAdmission(revision, ok) => OnWriteAdmission(s, revision, ok);
    case FinishResume(revision) => OnFinishResume(s, revision);
    case CancelRequest(id) => OnCancelRequest(s, id);
    case CancelControl(id) => OnCancelControl(s, id);
    case CancelQueued(id) => OnCancelQueued(s, id);
    case BeginClose => OnBeginClose(s);
    case Take(attempt) => OnTake(s, attempt);
    case ResolveCached(id) => OnResolveCached(s, id);
    case ResolveFresh(id, endpoints, oldest) => OnResolveFresh(s, id, endpoints, oldest);
    case ResolveCancelled(id) => OnResolveCancelled(s, id);
    case Select(id, choice) => OnSelect(s, id, choice);
    case CheckStart(id) => OnCheckStart(s, id);
    case EnterGate(id) => OnEnterGate(s, id);
    case Wake(i) => OnWake(s, i);
    case WriteStarted(id, ok) => OnWriteStarted(s, id, ok);
    case AbandonAck(i) => OnAbandonAck(s, i);
    case GrantOrRefuse(i) => OnGrantOrRefuse(s, i);
    case EndCapture(id, captured, cancel, unreachable, victim, familyVictim) =>
      OnEndCapture(s, id, captured, cancel, unreachable, victim, familyVictim);
    case Record(id) => OnRecord(s, id);
    case WriteCapture(id, ok) => OnWriteCapture(s, id, ok);
    case MarkCancelled(id) => OnMarkCancelled(s, id);
    case Report(id) => OnReport(s, id);
    case RetireJob(id) => OnRetireJob(s, id);
    case WriteTerminal(id, ok) => OnWriteTerminal(s, id, ok);
    case Crash(id) => OnCrash(s, id);
    case Fatal(id) => OnFatal(s, id);
    case FatalSpawn => OnFatalSpawn(s);
    case Leave(id) => OnLeave(s, id);
  }

  /** Shutdown begins once, failures stay, and only a submit can fail to start a worker. */
  predicate EndOnward(s: Service, t: Service, a: Action) {
    (s.end.closed ==> t.end.closed) && (s.end.failed ==> t.end.failed) &&
    (!a.BeginClose? && !a.Fatal? && !a.FatalSpawn? ==> t.end.closed == s.end.closed) &&
    (!a.SubmitAttempt? && !a.SubmitResolve? ==> t.end.spawnFailed == s.end.spawnFailed) &&
    if a.BeginClose? then t.end.shutdown && t.end.closed && t.end.closing == s.live
    else
      t.end.shutdown == s.end.shutdown &&
      t.end.closing == if a.CancelQueued? then s.end.closing - {a.id} else s.end.closing
  }

  lemma SameEnd(s: Service, t: Service, a: Action)
    requires t.end == s.end && !a.BeginClose? && !a.CancelQueued?
    ensures EndOnward(s, t, a)
  {
  }

  lemma SubmitEnd(s: Service, a: Action)
    requires Possible(s, a) && (a.SubmitAttempt? || a.SubmitResolve?)
    ensures EndOnward(s, Apply(s, a), a)
  {
    hide Apply;
    hide Enabled;
    hide StopCount;
    hide Notify;
    match a
    case SubmitAttempt(id, domain, bounty, target, imported, victim, spawn) =>
      OnSubmitAttempt(s, id, domain, bounty, target, imported, victim, spawn);
    case SubmitResolve(id, domain, spawn) => OnSubmitResolve(s, id, domain, spawn);
  }

  lemma WriteEnd(s: Service, a: Action)
    requires Possible(s, a) && (a.WriteAdmission? || a.WriteStarted? || a.WriteCapture? || a.WriteTerminal?)
    ensures EndOnward(s, Apply(s, a), a)
  {
    hide Apply;
    hide Enabled;
    match a
    case WriteAdmission(revision, ok) => OnWriteAdmission(s, revision, ok);
    case WriteStarted(id, ok) => OnWriteStarted(s, id, ok);
    case WriteCapture(id, ok) => OnWriteCapture(s, id, ok);
    case WriteTerminal(id, ok) => OnWriteTerminal(s, id, ok);
  }

  lemma ShutEnd(s: Service, a: Action)
    requires Possible(s, a) && (a.BeginClose? || a.Fatal? || a.FatalSpawn? || a.CancelQueued?)
    ensures EndOnward(s, Apply(s, a), a)
  {
    hide Apply;
    hide Enabled;
    hide Retire;
    match a
    case CancelQueued(id) => OnCancelQueued(s, id);
    case BeginClose => OnBeginClose(s);
    case Fatal(id) => OnFatal(s, id);
    case FatalSpawn => OnFatalSpawn(s);
  }

  /** Theorem about every action: the service only moves towards its end. */
  lemma EndKept(s: Service, a: Action)
    requires Possible(s, a)
    ensures EndOnward(s, Apply(s, a), a)
  {
    hide Apply;
    hide Possible;
    hide EndOnward;
    if a.SubmitAttempt? || a.SubmitResolve? { SubmitEnd(s, a); }
    else if a.WriteAdmission? || a.WriteStarted? || a.WriteCapture? || a.WriteTerminal? { WriteEnd(s, a); }
    else if a.BeginClose? || a.Fatal? || a.FatalSpawn? || a.CancelQueued? { ShutEnd(s, a); }
    else { StaysWithin(s, a); SameEnd(s, Apply(s, a), a); }
  }
}
