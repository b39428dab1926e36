/** Every action of every thread keeps the shape of the service. */
module ServiceShapeKept {
  import opened Outcomes
  import opened BudgetCutoff
  import opened ServiceState
  import opened ServiceSteps
  import opened ServiceActions
  import opened ServiceShape

  lemma InitShape(c: Config, start: real)
    requires GoodConfig(c)
    ensures Shape(Init(c, start))
  {
  }

  /** A record that fits the places of another one. */
  predicate SamePlace(j: Job, k: Job) {
    k.attempt == j.attempt && k.ticket == j.ticket && (k.phase.Queued? <==> j.phase.Queued?) &&
    (k.InGate() <==> j.InGate()) &&
    (k.running && !k.phase.Finished? <==> j.running && !j.phase.Finished?) &&
    (Registered(k.phase) ==> Registered(j.phase)) && (Unregistered(k.phase) ==> Unregistered(j.phase)) &&
    (k.running <==> j.running) && (!k.running ==> k.phase.Queued? || k.phase.Retired? || k.phase.Finished?) &&
    (AttemptPhase(k.phase) ==> AttemptPhase(j.phase) || j.attempt) && (j.phase.Waiting? ==> k.phase.Waiting?)
  }

  lemma SamePlaceFits(j: Job, k: Job, queued: bool, live: bool, busy: bool, gated: bool)
    requires JobOk(j, queued, live, busy, gated) && SamePlace(j, k)
    ensures JobOk(k, queued, live, busy, gated)
  {
  }

  /** One record moves on within its places. */
  lemma Moved(s: Service, t: Service, id: JobId, k: Job)
    requires Shape(s) && id in s.table && t.table == s.table[id := k] && SamePlaces(s, t) && SamePlace(s.table[id], k)
    ensures Shape(t)
  {
    var j := s.table[id];
    FitsPlaces(s, id);
    SamePlaceFits(j, k, id in s.LineOf(j.attempt).pending, id in s.live, id in s.LineOf(j.attempt).busy, id in s.gate);
    assert k.attempt == j.attempt && k.ticket == j.ticket && (j.phase.Waiting? ==> k.phase.Waiting?);
    hide SamePlace;
    hide JobOk;
    hide Shape;
    PutKeepsShape(s, t, id, k);
  }

  lemma RunningUnlessQueued(s: Service, id: JobId)
    requires Shape(s) && id in s.table
    ensures var j := s.table[id]; !j.running ==> j.phase.Queued? || j.phase.Retired? || j.phase.Finished?
  {
    FitsPlaces(s, id);
  }

  lemma CancelControlKeepsShape(s: Service, id: JobId)
    requires Shape(s) && Possible(s, CancelControl(id))
    ensures Shape(Apply(s, CancelControl(id)))
  {
    hide Apply;
    hide Enabled;
    OnCancelControl(s, id);
    RunningUnlessQueued(s, id);
    hide Shape;
    Moved(s, Apply(s, CancelControl(id)), id, Apply(s, CancelControl(id)).table[id]);
  }

  lemma CancelRequestKeepsShape(s: Service, id: JobId)
    requires Shape(s) && Possible(s, CancelRequest(id))
    ensures Shape(Apply(s, CancelRequest(id)))
  {
    hide Apply;
    hide Enabled;
    OnCancelRequest(s, id);
    RunningUnlessQueued(s, id);
    hide Shape;
    Moved(s, Apply(s, CancelRequest(id)), id, Apply(s, CancelRequest(id)).table[id]);
  }

  lemma ResolveCachedKeepsShape(s: Service, id: JobId)
    requires Shape(s) && Possible(s, ResolveCached(id))
    ensures Shape(Apply(s, ResolveCached(id)))
  {
    hide Apply;
    hide Enabled;
    OnResolveCached(s, id);
    RunningUnlessQueued(s, id);
    hide Shape;
    Moved(s, Apply(s, ResolveCached(id)), id, Apply(s, ResolveCached(id)).table[id]);
  }

  lemma ResolveFreshKeepsShape(s: Service, id: JobId, endpoints: seq<Endpoint>, oldest: Option<Domain>)
    requires Shape(s) && Possible(s, ResolveFresh(id, endpoints, oldest))
    ensures Shape(Apply(s, ResolveFresh(id, endpoints, oldest)))
  {
    hide Apply;
    hide Enabled;
    OnResolveFresh(s, id, endpoints, oldest);
    RunningUnlessQueued(s, id);
    hide Shape;
    Moved(s, Apply(s, ResolveFresh(id, endpoints, oldest)), id,
          Apply(s, ResolveFresh(id, endpoints, oldest)).table[id]);
  }

  lemma ResolveCancelledKeepsShape(s: Service, id: JobId)
    requires Shape(s) && Possible(s, ResolveCancelled(id))
    ensures Shape(Apply(s, ResolveCancelled(id)))
  {
    hide Apply;
    hide Enabled;
    OnResolveCancelled(s, id);
    RunningUnlessQueued(s, id);
    hide Shape;
    Moved(s, Apply(s, ResolveCancelled(id)), id, Apply(s, ResolveCancelled(id)).table[id]);
  }

  lemma SelectKeepsShape(s: Service, id: JobId, choice: Option<Endpoint>)
    requires Shape(s) && Possible(s, Select(id, choice))
    ensures Shape(Apply(s, Select(id, choice)))
  {
    hide Apply;
    hide Enabled;
    OnSelect(s, id, choice);
    RunningUnlessQueued(s, id);
    hide Shape;
    Moved(s, Apply(s, Select(id, choice)), id, Apply(s, Select(id, choice)).table[id]);
  }

  lemma CheckStartKeepsShape(s: Service, id: JobId)
    requires Shape(s) && Possible(s, CheckStart(id))
    ensures Shape(Apply(s, CheckStart(id)))
  {
    hide Apply;
    hide Enabled;
    OnCheckStart(s, id);
    RunningUnlessQueued(s, id);
    hide Shape;
    Moved(s, Apply(s, CheckStart(id)), id, Apply(s, CheckStart(id)).table[id]);
  }

  lemma WriteStartedKeepsShape(s: Service, id: JobId, ok: bool)
    requires Shape(s) && Possible(s, WriteStarted(id, ok))
    ensures Shape(Apply(s, WriteStarted(id, ok)))
  {
    hide Apply;
    hide Enabled;
    OnWriteStarted(s, id, ok);
    RunningUnlessQueued(s, id);
    hide Shape;
    Moved(s, Apply(s, WriteStarted(id, ok)), id, Apply(s, WriteStarted(id, ok)).table[id]);
  }

  lemma WriteCaptureKeepsShape(s: Service, id: JobId, ok: bool)
    requires Shape(s) && Possible(s, WriteCapture(id, ok))
    ensures Shape(Apply(s, WriteCapture(id, ok)))
  {
    hide Apply;
    hide Enabled;
    OnWriteCapture(s, id, ok);
    RunningUnlessQueued(s, id);
    hide Shape;
    Moved(s, Apply(s, WriteCapture(id, ok)), id, Apply(s, WriteCapture(id, ok)).table[id]);
  }

  lemma MarkCancelledKeepsShape(s: Service, id: JobId)
    requires Shape(s) && Possible(s, MarkCancelled(id))
    ensures Shape(Apply(s, MarkCancelled(id)))
  {
    hide Apply;
    hide Enabled;
    OnMarkCancelled(s, id);
    RunningUnlessQueued(s, id);
    hide Shape;
    Moved(s, Apply(s, MarkCancelled(id)), id, Apply(s, MarkCancelled(id)).table[id]);
  }

  lemma ReportKeepsShape(s: Service, id: JobId)
    requires Shape(s) && Possible(s, Report(id))
    ensures Shape(Apply(s, Report(id)))
  {
    hide Apply;
    hide Enabled;
    OnReport(s, id);
    RunningUnlessQueued(s, id);
    hide Shape;
    Moved(s, Apply(s, Report(id)), id, Apply(s, Report(id)).table[id]);
  }

  lemma WriteTerminalKeepsShape(s: Service, id: JobId, ok: bool)
    requires Shape(s) && Possible(s, WriteTerminal(id, ok))
    ensures Shape(Apply(s, WriteTerminal(id, ok)))
  {
    hide Apply;
    hide Enabled;
    OnWriteTerminal(s, id, ok);
    RunningUnlessQueued(s, id);
    hide Shape;
    Moved(s, Apply(s, WriteTerminal(id, ok)), id, Apply(s, WriteTerminal(id, ok)).table[id]);
  }

  lemma CrashKeepsShape(s: Service, id: JobId)
    requires Shape(s) && Possible(s, Crash(id))
    ensures Shape(Apply(s, Crash(id)))
  {
    hide Apply;
    hide Enabled;
    OnCrash(s, id);
    RunningUnlessQueued(s, id);
    hide Shape;
    Moved(s, Apply(s, Crash(id)), id, Apply(s, Crash(id)).table[id]);
  }

  // -----------------------------------------------------------------
  // The gate
  // -----------------------------------------------------------------

  /** Leaving the gate for a phase outside it, whatever else the section updates. */
  lemma LeaveGateKeepsShape(s: Service, t: Service, i: nat, j: Job)
    requires Shape(s) && i < |s.gate|
    requires t.table == Release(s, i).table[s.gate[i] := Release(s, i).table[s.gate[i]].(phase := j.phase)]
    requires t.gate == Without(s.gate, i) && SamePlaces(s, t.(gate := s.gate))
    requires j == s.table[s.gate[i]].(phase := j.phase)
    requires JobOk(j, false, true, s.gate[i] in s.LineOf(j.attempt).busy, false)
    ensures Shape(t)
  {
    WithoutMembers(s, i);
    assert Release(s, i).table[s.gate[i]] == s.table[s.gate[i]] by { assert s.gate[i] !in Without(s.gate, i); }
    hide JobOk;
    hide Shape;
    ReleaseKeepsShape(s, t, i, j);
  }

  lemma RefuseKeepsShape(s: Service, i: nat, why: Refusal)
    requires Shape(s) && i < |s.gate|
    ensures Shape(Refuse(s, i, why))
  {
    var id := s.gate[i];
    assert JobShape(s, id);
    var t := Refuse(s, i, why);
    var j := s.table[id].(phase := Ended(false, why.Shutdown?));
    LeaveGateKeepsShape(s, t, i, j);
  }

  lemma WakeKeepsShape(s: Service, i: nat)
    requires Shape(s) && Possible(s, Wake(i))
    ensures Shape(Apply(s, Wake(i)))
  {
    hide Apply;
    hide Enabled;
    OnWake(s, i);
    hide Shape;
    hide Turn;
    TurnKeepsShape(s, i);
  }

  lemma TurnKeepsShape(s: Service, i: nat)
    requires Shape(s) && i < |s.gate| && s.gate[i] in s.table && s.table[s.gate[i]].phase.Waiting?
    ensures Shape(Turn(s, i))
  {
    hide Shape;
    hide Refused;
    hide Refuse;
    var why := Refused(s, s.table[s.gate[i]]);
    if why.Some? { RefuseKeepsShape(s, i, why.value); } else { StayKeepsShape(s, i); }
  }

  lemma StayTable(s: Service, i: nat)
    requires i < |s.gate| && s.gate[i] in s.table && s.table[s.gate[i]].phase.Waiting? &&
             Refused(s, s.table[s.gate[i]]).None?
    ensures var id, t := s.gate[i], Turn(s, i);
            id in t.table && t.table == s.table[id := t.table[id]] && SamePlaces(s, t)
    ensures var k := Turn(s, i).table[s.gate[i]];
      (i == 0 || k.phase.Waiting?) && k == s.table[s.gate[i]].(phase := k.phase, started := k.started) &&
      (k.phase.Waiting? || k.phase.Acking?)
  {
    hide Refused;
    hide Refuse;
  }

  /** The job sleeps on, or goes past the wait as the head. */
  lemma StayKeepsShape(s: Service, i: nat)
    requires Shape(s) && i < |s.gate| && s.gate[i] in s.table && s.table[s.gate[i]].phase.Waiting? &&
             Refused(s, s.table[s.gate[i]]).None?
    ensures Shape(Turn(s, i))
  {
    hide Shape;
    hide Refused;
    hide JobOk;
    hide Turn;
    hide SamePlaces;
    StayTable(s, i);
    var id, t := s.gate[i], Turn(s, i);
    var k := t.table[id];
    FitsPlaces(s, id);
    TurnFits(s.table[id], k, id in s.LineOf(k.attempt).pending, id in s.live, id in s.LineOf(k.attempt).busy,
             id in s.gate);
    HeadIs(s, i);
    PutKeepsShape(s, t, id, k);
  }

  lemma HeadIs(s: Service, i: nat)
    requires Shape(s) && i < |s.gate|
    ensures i == 0 <==> s.gate[0] == s.gate[i]
  {
    assert GateShape(s);
    if i != 0 { GateDistinct(s, 0, i); }
  }

  lemma TurnFits(j: Job, k: Job, queued: bool, live: bool, busy: bool, gated: bool)
    requires JobOk(j, queued, live, busy, gated) && j.phase.Waiting?
    requires k == j.(phase := k.phase, started := k.started) && (k.phase.Waiting? || k.phase.Acking?)
    ensures JobOk(k, queued, live, busy, gated)
  {
  }

  lemma EnterKeepsShape(s: Service, id: JobId)
    requires Shape(s) && Possible(s, EnterGate(id))
    ensures Shape(Apply(s, EnterGate(id)))
  {
    hide Apply;
    hide Enabled;
    OnEnterGate(s, id);
    hide Shape;
    hide Turn;
    ArrivalKeepsShape(s, id);
    TurnKeepsShape(Arrived(s, id), |s.gate|);
  }

  lemma GrantKeepsShape(s: Service, i: nat)
    requires Shape(s) && i < |s.gate| && s.gate[i] in s.table && s.table[s.gate[i]].phase.Acked?
    ensures s.config.rate >= 1 && Shape(Grant(s, i))
  {
    var id := s.gate[i];
    assert s.config.rate >= 1;
    FitsPlaces(s, id);
    hide Shape;
    hide Advance;
    var t := Grant(s, i);
    var j := s.table[id].(phase := Connected);
    assert JobOk(j, false, true, id in s.LineOf(j.attempt).busy, false);
    hide JobOk;
    LeaveGateKeepsShape(s, t, i, j);
  }

  lemma PauseKeepsShape(s: Service, i: nat)
    requires Shape(s) && i < |s.gate| && s.gate[i] in s.table
    ensures var id := s.gate[i]; Shape(Refuse(Put(s, id, s.table[id].(cancelRequested := true)), i, Shutdown))
  {
    var id := s.gate[i];
    var j := s.table[id].(cancelRequested := true);
    RunningUnlessQueued(s, id);
    hide Shape;
    hide Refuse;
    Moved(s, Put(s, id, j), id, j);
    RefuseKeepsShape(Put(s, id, j), i, Shutdown);
  }

  lemma GrantOrRefuseKeepsShape(s: Service, i: nat)
    requires Shape(s) && Possible(s, GrantOrRefuse(i))
    ensures Shape(Apply(s, GrantOrRefuse(i)))
  {
    hide Apply;
    hide Enabled;
    hide Refused;
    hide Refuse;
    hide Grant;
    hide Shape;
    OnGrantOrRefuse(s, i);
    var why := Refused(s, s.table[s.gate[i]]);
    if why.Some? { RefuseKeepsShape(s, i, why.value); }
    else if !s.door.allowed { PauseKeepsShape(s, i); }
    else { GrantKeepsShape(s, i); }
  }

  lemma AbandonStays(s: Service, i: nat)
    requires Shape(s) && i < |s.gate| && s.table[s.gate[i]].phase.AckFailed?
    ensures Shape(DoAbandonAck(s, i))
  {
    var id := s.gate[i];
    FitsPlaces(s, id);
    hide Shape;
    var t := DoAbandonAck(s, i);
    var j := s.table[id].(phase := Crashed);
    assert JobOk(j, false, true, id in s.LineOf(j.attempt).busy, false);
    hide JobOk;
    assert t.gate == Without(s.gate, i) && SamePlaces(s, t.(gate := s.gate));
    assert t.table == Release(s, i).table[id := Release(s, i).table[id].(phase := Crashed)];
    hide Release;
    hide DoAbandonAck;
    LeaveGateKeepsShape(s, t, i, j);
  }

  lemma AbandonKeepsShape(s: Service, i: nat)
    requires Shape(s) && Possible(s, AbandonAck(i))
    ensures Shape(Apply(s, AbandonAck(i)))
  {
    hide Apply;
    hide Enabled;
    hide Shape;
    OnAbandonAck(s, i);
    hide DoAbandonAck;
    AbandonStays(s, i);
  }

  // -----------------------------------------------------------------
  // Captures, budgets and exclusions
  // -----------------------------------------------------------------

  lemma BudgetChangedKeepsShape(s: Service, bounty: Bounty)
    requires Shape(s)
    ensures Shape(BudgetChanged(s, bounty))
  {
    var ids := set id | id in s.gate && id in s.table && s.table[id].bounty == bounty;
    NotifyKeepsShape(s, ids);
  }

  lemma ExcludeKeepsShape(s: Service, e: Endpoint, family: bool, victim: Option<Endpoint>, familyVictim: Option<int>)
    requires Shape(s)
    ensures Shape(Exclude(s, e, family, victim, familyVictim))
  {
    var hit := set k | k in s.gate && k in s.table && s.table[k].endpoint.Some? &&
                      (if family then s.table[k].endpoint.value.family == e.family else s.table[k].endpoint.value == e);
    NotifyKeepsShape(s, hit);
    hide Shape;
    SameShape(s.(table := Notify(s.table, hit)), Exclude(s, e, family, victim, familyVictim));
  }

  lemma EndCaptureKeepsShape(s: Service, id: JobId, captured: bool, cancel: bool, unreachable: Option<bool>,
                             victim: Option<Endpoint>, familyVictim: Option<int>)
    requires Shape(s) && Possible(s, EndCapture(id, captured, cancel, unreachable, victim, familyVictim))
    ensures Shape(Apply(s, EndCapture(id, captured, cancel, unreachable, victim, familyVictim)))
  {
    hide Apply;
    hide Enabled;
    hide VictimsChosen;
    hide Exclude;
    OnEndCapture(s, id, captured, cancel, unreachable, victim, familyVictim);
    RunningUnlessQueued(s, id);
    hide Shape;
    var j, t := s.table[id], DoEndCapture(s, id, captured, cancel, unreachable, victim, familyVictim);
    var k := j.(captured := captured, phase := Ended(j.phase.Connected?, cancel));
    var s1 := if unreachable.Some? then Exclude(s, j.endpoint.value, unreachable.value, victim, familyVictim) else s;
    assert t == Put(s1, id, k);
    hide DoEndCapture;
    if unreachable.Some? {
      ExcludeKeepsShape(s, j.endpoint.value, unreachable.value, victim, familyVictim);
      ExcludeApart(s, j.endpoint.value, unreachable.value, victim, familyVictim, id);
    }
    Moved(s1, t, id, k);
  }

  /** An exclusion leaves places alone, and everyone who is not in the gate. */
  lemma ExcludeApart(s: Service, e: Endpoint, family: bool, victim: Option<Endpoint>, familyVictim: Option<int>,
                     id: JobId)
    requires id in s.table && id !in s.gate
    ensures var t := Exclude(s, e, family, victim, familyVictim);
            id in t.table && t.table[id] == s.table[id] && SamePlaces(s, t)
  {
  }

  lemma SameShape(s: Service, t: Service)
    requires Shape(s) && SamePlaces(s, t) && t.table == s.table
    ensures Shape(t)
  {
    forall id | id in t.table ensures JobShape(t, id) { assert JobShape(s, id); }
  }

  lemma CountKeepsShape(s: Service, id: JobId)
    requires Shape(s) && id in s.table && s.table[id].phase.Ended? && s.table[id].started &&
             s.table[id].bounty in s.budgets
    ensures Shape(DoRecord(s, id))
  {
    RunningUnlessQueued(s, id);
    hide Shape;
    var j := s.table[id];
    var b := s.budgets[j.bounty];
    var b' := if j.captured && b.successes != MAX_COUNT then b.(successes := b.successes + 1) else b;
    var k := j.(successes := Some(b'.successes), phase := Recorded(j.phase.cancel));
    var s1 := Put(s, id, k).(budgets := s.budgets[j.bounty := b']);
    assert DoRecord(s, id) == BudgetChanged(s1, j.bounty);
    hide DoRecord;
    hide BudgetChanged;
    Moved(s, s1, id, k);
    BudgetChangedKeepsShape(s1, j.bounty);
  }

  lemma RecordKeepsShape(s: Service, id: JobId)
    requires Shape(s) && Possible(s, Record(id))
    ensures Shape(Apply(s, Record(id)))
  {
    hide Apply;
    hide Enabled;
    OnRecord(s, id);
    RunningUnlessQueued(s, id);
    hide Shape;
    var j := s.table[id];
    if j.started && j.bounty in s.budgets { CountKeepsShape(s, id); }
    else { Moved(s, DoRecord(s, id), id, j.(phase := Judging(j.phase.cancel))); }
  }

  // -----------------------------------------------------------------
  // Registration and retirement
  // -----------------------------------------------------------------

  lemma SubmitAttemptStays(s: Service, id: JobId, domain: Domain, bounty: Bounty, target: nat, imported: Count,
                           victim: Option<Bounty>, spawn: bool)
    requires Shape(s) && s.lastId < id
    ensures Shape(DoSubmitAttempt(s, id, domain, bounty, target, imported, victim, spawn))
  {
    var s1 := Import(s, bounty, target, imported, victim);
    var s2 := BudgetChanged(s1, bounty);
    var s3 := s2.(door := s.door.(idle := s.door.idle || NoLiveAttempt(s)));
    var j := NewJob(true, domain, bounty);
    assert DoSubmitAttempt(s, id, domain, bounty, target, imported, victim, spawn) == Submit(s3, id, j, spawn);
    hide DoSubmitAttempt;
    assert s1 == s.(budgets := s1.budgets, touched := s1.touched);
    hide Import;
    assert JobOk(j, true, true, false, false);
    assert Shape(s1) by { hide JobOk; hide Shape; SameShape(s, s1); }
    hide Shape;
    hide JobOk;
    BudgetChangedKeepsShape(s1, bounty);
    assert s2 == s1.(table := s2.table);
    hide BudgetChanged;
    SameShape(s2, s3);
    SubmitPlaces(s3, id, j, spawn);
  }

  lemma SubmitAttemptKeepsShape(s: Service, id: JobId, domain: Domain, bounty: Bounty, target: nat, imported: Count,
                                victim: Option<Bounty>, spawn: bool)
    requires Shape(s) && Possible(s, SubmitAttempt(id, domain, bounty, target, imported, victim, spawn))
    ensures Shape(Apply(s, SubmitAttempt(id, domain, bounty, target, imported, victim, spawn)))
  {
    hide Apply;
    hide Enabled;
    hide Shape;
    hide DoSubmitAttempt;
    OnSubmitAttempt(s, id, domain, bounty, target, imported, victim, spawn);
    SubmitAttemptStays(s, id, domain, bounty, target, imported, victim, spawn);
  }

  lemma SubmitPlaces(s: Service, id: JobId, j: Job, spawn: bool)
    requires Shape(s) && id > s.lastId && JobOk(j, true, true, false, false)
    ensures Shape(Submit(s, id, j, spawn))
  {
    hide Shape;
    hide JobOk;
    SubmitKeepsShape(s, Submit(s, id, j, spawn), id, j);
  }

  lemma SubmitResolveKeepsShape(s: Service, id: JobId, domain: Domain, spawn: bool)
    requires Shape(s) && Possible(s, SubmitResolve(id, domain, spawn))
    ensures Shape(Apply(s, SubmitResolve(id, domain, spawn)))
  {
    hide Apply;
    hide Enabled;
    hide Shape;
    hide Submit;
    OnSubmitResolve(s, id, domain, spawn);
    SubmitPlaces(s, id, NewJob(false, domain, ""), spawn);
  }

  /** Retire takes exactly the job's own place away. */
  lemma RetirePlaces(s: Service, id: JobId)
    requires Shape(s) && id in s.live
    ensures var t := Retire(s, id);
      var j := s.table[id];
      t.tls.busy == s.tls.busy && t.dns.busy == s.dns.busy &&
      t.LineOf(!j.attempt) == s.LineOf(!j.attempt) &&
      t.LineOf(j.attempt).pending == if j.running
        then s.LineOf(j.attempt).pending
        else Erase(s.LineOf(j.attempt).pending, id)
  {
  }

  lemma CancelQueuedStays(s: Service, id: JobId)
    requires Shape(s) && id in s.table
    ensures Shape(DoCancelQueued(s, id))
  {
    var s1 := s.(end := s.end.(closing := s.end.closing - {id}));
    SameShape(s, s1);
    var j := s.table[id];
    if id in s.live && !j.running {
      assert JobShape(s1, id);
      RetirePlaces(s1, id);
      var t := DoCancelQueued(s, id);
      var j' := t.table[id];
      assert JobOk(j', false, false, id in s.LineOf(j.attempt).busy, false);
      RetireKeepsShape(s1, t, id, j', false);
    }
  }

  lemma CancelQueuedKeepsShape(s: Service, id: JobId)
    requires Shape(s) && Possible(s, CancelQueued(id))
    ensures Shape(Apply(s, CancelQueued(id)))
  {
    hide Apply;
    hide Enabled;
    hide Shape;
    hide DoCancelQueued;
    OnCancelQueued(s, id);
    CancelQueuedStays(s, id);
  }

  lemma RetireJobKeepsShape(s: Service, id: JobId)
    requires Shape(s) && Possible(s, RetireJob(id))
    ensures Shape(Apply(s, RetireJob(id)))
  {
    hide Apply;
    hide Enabled;
    OnRetireJob(s, id);
    FitsPlaces(s, id);
    var j := s.table[id].(phase := Retired(s.table[id].phase.count));
    assert JobOk(j, false, false, id in s.LineOf(j.attempt).busy, false) && id in s.live && s.table[id].running;
    hide JobOk;
    RetirePlaces(s, id);
    hide Shape;
    var t := DoRetireJob(s, id);
    assert t == Put(Retire(s, id), id, j);
    hide DoRetireJob;
    RetireKeepsShape(s, t, id, j, false);
  }

  lemma LeaveKeepsShape(s: Service, id: JobId)
    requires Shape(s) && Possible(s, Leave(id))
    ensures Shape(Apply(s, Leave(id)))
  {
    hide Apply;
    hide Enabled;
    OnLeave(s, id);
    FitsPlaces(s, id);
    var j := s.table[id].(phase := Finished);
    assert JobOk(j, false, false, false, false);
    hide JobOk;
    if id in s.live { RetirePlaces(s, id); } else { assert s.live - {id} == s.live; }
    hide Shape;
    RetireKeepsShape(s, DoLeave(s, id), id, j, true);
  }

  lemma ShutKeepsShape(s: Service)
    requires Shape(s)
    ensures Shape(DoShut(s))
  {
    var s1 := s.(end := s.end.(closed := true));
    SameShape(s, s1);
    CancelAllKeepsShape(s1);
  }

  lemma DoomKeepsShape(t: Service, id: JobId)
    requires Shape(t) && id in t.table && t.table[id].phase.Crashed?
    ensures Shape(SetPhase(t, id, Doomed))
  {
    FitsPlaces(t, id);
    hide Shape;
    var j := t.table[id].(phase := Doomed);
    assert JobOk(j, id in t.LineOf(j.attempt).pending, id in t.live, id in t.LineOf(j.attempt).busy, id in t.gate);
    hide JobOk;
    PutKeepsShape(t, SetPhase(t, id, Doomed), id, j);
  }

  lemma FatalStays(s: Service, id: JobId)
    requires Shape(s) && id in s.table && s.table[id].phase.Crashed?
    ensures Shape(DoFatal(s, id))
  {
    SameShape(s, Fail(s));
    ShutKeepsShape(Fail(s));
    hide Shape;
    DoomKeepsShape(DoShut(Fail(s)), id);
  }

  lemma FatalKeepsShape(s: Service, id: JobId)
    requires Shape(s) && Possible(s, Fatal(id))
    ensures Shape(Apply(s, Fatal(id)))
  {
    hide Apply;
    hide Enabled;
    hide Shape;
    hide DoFatal;
    OnFatal(s, id);
    FatalStays(s, id);
  }

  lemma NotifyGateKeepsShape(s: Service)
    requires Shape(s)
    ensures Shape(NotifyGate(s))
  {
    NotifyKeepsShape(s, set id | id in s.gate);
  }

  lemma AcceptKeepsShape(s: Service, revision: nat, allowed: bool)
    requires Shape(s) && Possible(s, AcceptAdmission(revision, allowed))
    ensures Shape(Apply(s, AcceptAdmission(revision, allowed)))
  {
    hide Apply;
    hide Enabled;
    OnAcceptAdmission(s, revision, allowed);
    var door := s.door.(revision := revision, admissions := s.door.admissions[revision := Unacknowledged(allowed)]);
    var s1 := s.(lastId := revision, door := if allowed then door else door.(allowed := false, lastPause := revision));
    LastIdKeepsShape(s, s1);
    if !allowed { NotifyGateKeepsShape(s1); }
  }

  lemma WriteAdmissionKeepsShape(s: Service, revision: nat, ok: bool)
    requires Shape(s) && Possible(s, WriteAdmission(revision, ok))
    ensures Shape(Apply(s, WriteAdmission(revision, ok)))
  {
    hide Apply;
    hide Enabled;
    OnWriteAdmission(s, revision, ok);
    SameShape(s, DoWriteAdmission(s, revision, ok));
  }

  lemma FatalSpawnKeepsShape(s: Service)
    requires Shape(s) && Possible(s, FatalSpawn)
    ensures Shape(Apply(s, FatalSpawn))
  {
    hide Apply;
    hide Enabled;
    OnFatalSpawn(s);
    SameShape(s, Fail(s));
    ShutKeepsShape(Fail(s));
  }

  lemma BeginCloseKeepsShape(s: Service)
    requires Shape(s) && Possible(s, BeginClose)
    ensures Shape(Apply(s, BeginClose))
  {
    hide Apply;
    hide Enabled;
    OnBeginClose(s);
    ShutKeepsShape(s);
    hide Shape;
    SameShape(DoShut(s), DoBeginClose(s));
  }

  lemma TickKeepsShape(s: Service, now: real, reach: real)
    requires Shape(s) && Possible(s, Tick(now, reach))
    ensures Shape(Apply(s, Tick(now, reach)))
  {
    hide Apply;
    hide Enabled;
    OnTick(s, now, reach);
    SameShape(s, s.(clock := Clock(now, reach)));
  }

  lemma ResumeKeepsShape(s: Service, revision: nat)
    requires Shape(s) && Possible(s, FinishResume(revision))
    ensures Shape(Apply(s, FinishResume(revision)))
  {
    hide Apply;
    hide Enabled;
    OnFinishResume(s, revision);
    var door := s.door.(admissions := s.door.admissions - {revision});
    var next := if door.allowed then door.next else MaxReal(door.next, s.clock.now);
    var s1 := s.(door := door.(next := next, allowed := true, openedBy := revision));
    SameShape(s, s1);
    SameShape(s, s.(door := door));
    NotifyGateKeepsShape(s1);
  }

  lemma LastIdKeepsShape(s: Service, t: Service)
    requires Shape(s) && SamePlaces(s, t.(lastId := s.lastId)) && t.table == s.table && s.lastId <= t.lastId
    ensures Shape(t)
  {
    forall id | id in t.table ensures JobShape(t, id) { assert JobShape(s, id); }
  }

  lemma TakingKeepsShape(s: Service, attempt: bool)
    requires Shape(s) && Possible(s, Take(attempt))
    ensures Shape(Apply(s, Take(attempt)))
  {
    hide Apply;
    hide Enabled;
    hide Shape;
    OnTake(s, attempt);
    hide DoTake;
    TakeKeepsShape(s, attempt);
  }

  /** Theorem: the shape holds after any action from a state in which it holds. */
  lemma ShapeKept(s: Service, a: Action)
    requires Shape(s) && Possible(s, a)
    ensures Shape(Apply(s, a))
  {
    hide Shape;
    hide Possible;
    hide Apply;
    match a
    case Tick(now, reach) => TickKeepsShape(s, now, reach);
    case SubmitAttempt(id, domain, bounty, target, imported, victim, spawn) =>
      SubmitAttemptKeepsShape(s, id, domain, bounty, target, imported, victim, spawn);
    case SubmitResolve(id, domain, spawn) => SubmitResolveKeepsShape(s, id, domain, spawn);
    case AcceptAdmission(revision, allowed) => AcceptKeepsShape(s, revision, allowed);
    case WriteAdmission(revision, ok) => WriteAdmissionKeepsShape(s, revision, ok);
    case FinishResume(revision) => ResumeKeepsShape(s, revision);
    case CancelRequest(id) => CancelRequestKeepsShape(s, id);
    case CancelControl(id) => CancelControlKeepsShape(s, id);
    case CancelQueued(id) => CancelQueuedKeepsShape(s, id);
    case BeginClose => BeginCloseKeepsShape(s);
    case Take(attempt) => TakingKeepsShape(s, attempt);
    case ResolveCached(id) => ResolveCachedKeepsShape(s, id);
    case ResolveFresh(id, endpoints, oldest) => ResolveFreshKeepsShape(s, id, endpoints, oldest);
    case ResolveCancelled(id) => ResolveCancelledKeepsShape(s, id);
    case Select(id, choice) => SelectKeepsShape(s, id, choice);
    case CheckStart(id) => CheckStartKeepsShape(s, id);
    case EnterGate(id) => EnterKeepsShape(s, id);
    case Wake(i) => WakeKeepsShape(s, i);
    case WriteStarted(id, ok) => WriteStartedKeepsShape(s, id, ok);
    case AbandonAck(i) => AbandonKeepsShape(s, i);
    case GrantOrRefuse(i) => GrantOrRefuseKeepsShape(s, i);
    case EndCapture(id, captured, cancel, unreachable, victim, familyVictim) =>
      EndCaptureKeepsShape(s, id, captured, cancel, unreachable, victim, familyVictim);
    case Record(id) => RecordKeepsShape(s, id);
    case WriteCapture(id, ok) => WriteCaptureKeepsShape(s, id, ok);
    case MarkCancelled(id) => MarkCancelledKeepsShape(s, id);
    case Report(id) => ReportKeepsShape(s, id);
    case RetireJob(id) => RetireJobKeepsShape(s, id);
    case WriteTerminal(id, ok) => WriteTerminalKeepsShape(s, id, ok);
    case Crash(id) => CrashKeepsShape(s, id);
    case Fatal(id) => FatalKeepsShape(s, id);
    case FatalSpawn => FatalSpawnKeepsShape(s);
    case Leave(id) => LeaveKeepsShape(s, id);
  }
}
