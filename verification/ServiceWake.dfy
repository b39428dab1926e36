/**
  No wake-up is lost. Until an output failure, a job asleep in the connection
  gate with no notification under way could not go on if it were awake: it is
  admissible, and it is behind the head, held by the closed gate, or the head
  waiting for its deadline.
*/
module ServiceWake {
  import opened Outcomes
  import opened BudgetCutoff
  import opened ServiceState
  import opened ServiceSteps
  import opened ServiceActions
  import opened ServiceShape
  import opened ServiceGraph
  import opened ServiceCounts
  import opened ServiceBudgets

  /** The job at index i of the gate has a reason to sleep on. */
  ghost predicate RightlyAsleep(s: Service, i: nat, j: Job) {
    Refused(s, j).None? &&
    match j.phase
    case Waiting(Untimed(_)) => i != 0 || !s.door.allowed
    case Waiting(Timed(_, deadline)) => i == 0 && s.door.allowed && deadline == s.door.next
    case _ => true
  }

  ghost predicate NobodyMissed(s: Service) {
    s.end.failed ||
    forall i :: 0 <= i < |s.gate| && s.gate[i] in s.table && s.table[s.gate[i]].SleepsUnnotified() ==>
      RightlyAsleep(s, i, s.table[s.gate[i]])
  }

  /** The job at index i has not yet looked at its reasons. */
  ghost predicate NobodyMissedBut(s: Service, i: nat) {
    s.end.failed ||
    forall k :: 0 <= k < |s.gate| && k != i && s.gate[k] in s.table && s.table[s.gate[k]].SleepsUnnotified() ==>
      RightlyAsleep(s, k, s.table[s.gate[k]])
  }

  // -----------------------------------------------------------------
  // Actions that leave the gate and the door alone
  // -----------------------------------------------------------------

  ghost predicate SameGate(s: Service, t: Service) {
    t.gate == s.gate && t.door.allowed == s.door.allowed && t.door.next == s.door.next &&
    (s.end.failed ==> t.end.failed)
  }

  /** A record that still sleeps unnotified is the old one and still admissible, unless it was cancelled before. */
  ghost predicate SleeperSame(s: Service, t: Service, id: JobId)
    requires id in s.table && id in t.table
  {
    t.end.failed ||
    (t.table[id].SleepsUnnotified() ==>
      (s.table[id].SleepsUnnotified() && s.table[id].Cancelled()) ||
      (t.table[id] == s.table[id] && (Refused(s, s.table[id]).None? ==> Refused(t, t.table[id]).None?)))
  }

  lemma SleepersStay(s: Service, t: Service)
    requires NobodyMissed(s) && SameGate(s, t)
    requires forall id :: id in s.gate ==> id in s.table && id in t.table && SleeperSame(s, t, id)
    ensures NobodyMissed(t)
  {
    if !t.end.failed {
      forall i | 0 <= i < |t.gate| && t.gate[i] in t.table && t.table[t.gate[i]].SleepsUnnotified()
        ensures RightlyAsleep(t, i, t.table[t.gate[i]])
      {
        var id := s.gate[i];
        assert id in s.gate && SleeperSame(s, t, id);
        assert s.table[id].SleepsUnnotified() ==> RightlyAsleep(s, i, s.table[id]);
        hide BudgetBelowStop;
      }
    }
  }

  /** The actions after which a sleeper may have to be told something. */
  predicate Tells(a: Action) {
    a.SubmitAttempt? || a.AcceptAdmission? || a.FinishResume? || a.BeginClose? || a.Fatal? || a.FatalSpawn? ||
    a.EnterGate? || a.Wake? || a.AbandonAck? || a.GrantOrRefuse? || a.EndCapture? || a.Record?
  }

  /** What a refusal depends on, apart from the record of the job. */
  ghost predicate SameReasons(s: Service, t: Service) {
    t.end.closed == s.end.closed && (t.end.failed == s.end.failed || t.end.failed) &&
    t.net.routes == s.net.routes && t.net.families == s.net.families && s.clock.reach <= t.clock.reach &&
    SameCounts(s, t)
  }

  lemma QuietReasons(s: Service, a: Action)
    requires Possible(s, a) && !Tells(a)
    ensures SameGate(s, Apply(s, a)) && SameReasons(s, Apply(s, a))
  {
    hide Apply;
    hide Enabled;
    StaysWithin(s, a);
    EndKept(s, a);
    CountsStay(s, a);
    if a.ResolveFresh? { OnResolveFresh(s, a.id, a.endpoints, a.oldest); }
    else { NetKept(s, a); }
    if a.WriteAdmission? { OnWriteAdmission(s, a.revision, a.ok); }
    if a.Tick? { OnTick(s, a.now, a.reach); }
    hide SameCounts;
    hide CanStoreDns;
    hide StoreDns;
  }

  lemma ReasonsStay(s: Service, t: Service, j: Job)
    requires SameReasons(s, t) && Refused(s, j).None?
    ensures t.end.failed || Refused(t, j).None?
  {
    if j.bounty in s.budgets { assert SameCount(s.budgets[j.bounty], t.budgets[j.bounty]); }
  }

  /** A record that sleeps on after a quiet action is the old one. */
  predicate SleepsOn(s: Service, t: Service, id: JobId)
    requires id in s.table && id in t.table
  {
    t.table[id].SleepsUnnotified() ==>
      t.table[id] == s.table[id] || (s.table[id].SleepsUnnotified() && s.table[id].Cancelled())
  }

  /** Cancelling a job tells it, unless it had been told before. */
  lemma CancelRecord(s: Service, a: Action, id: JobId)
    requires Possible(s, a) && id in s.table && id in Apply(s, a).table && (a.CancelRequest? || a.CancelControl?)
    ensures SleepsOn(s, Apply(s, a), id)
  {
    hide Apply;
    hide Enabled;
    match a
    case CancelRequest(k) => OnCancelRequest(s, k);
    case CancelControl(k) => OnCancelControl(s, k);
  }

  /** Every other quiet action replaces only the record of the job it serves. */
  lemma QuietTable(s: Service, a: Action, id: JobId)
    requires Possible(s, a) && !Tells(a) && !a.CancelRequest? && !a.CancelControl? && id in s.table
    ensures id in Apply(s, a).table && (Apply(s, a).table[id] == s.table[id] || !Apply(s, a).table[id].phase.Waiting?)
  {
    hide Apply;
    hide Enabled;
    match a
    case Tick(now, reach) => OnTick(s, now, reach);
    case SubmitResolve(k, domain, spawn) => OnSubmitResolve(s, k, domain, spawn);
    case WriteAdmission(revision, ok) => OnWriteAdmission(s, revision, ok);
    case CancelQueued(k) => OnCancelQueued(s, k);
    case Take(attempt) => OnTake(s, attempt);
    case RetireJob(k) => OnRetireJob(s, k);
    case Leave(k) => OnLeave(s, k);
    case _ => QuietJob(s, a, id);
  }

  lemma QuietJob(s: Service, a: Action, id: JobId)
    requires Possible(s, a) && !Tells(a) && !a.CancelRequest? && !a.CancelControl? && id in s.table
    requires !Rebooks(a) && !a.Tick? && !a.WriteAdmission?
    ensures id in Apply(s, a).table && (Apply(s, a).table[id] == s.table[id] || !Apply(s, a).table[id].phase.Waiting?)
  {
    hide Apply;
    hide Enabled;
    hide Refused;
    hide CanStoreDns;
    match a
    case ResolveCached(k) => OnResolveCached(s, k);
    case ResolveFresh(k, endpoints, oldest) => OnResolveFresh(s, k, endpoints, oldest);
    case ResolveCancelled(k) => OnResolveCancelled(s, k);
    case Select(k, choice) => OnSelect(s, k, choice);
    case CheckStart(k) => OnCheckStart(s, k);
    case WriteStarted(k, ok) => OnWriteStarted(s, k, ok);
    case WriteCapture(k, ok) => OnWriteCapture(s, k, ok);
    case MarkCancelled(k) => OnMarkCancelled(s, k);
    case Report(k) => OnReport(s, k);
    case WriteTerminal(k, ok) => OnWriteTerminal(s, k, ok);
    case Crash(k) => OnCrash(s, k);
  }

  lemma QuietWake(s: Service, a: Action)
    requires Shape(s) && NobodyMissed(s) && Possible(s, a) && !Tells(a)
    ensures NobodyMissed(Apply(s, a))
  {
    hide Apply;
    hide Enabled;
    hide NobodyMissed;
    var t := Apply(s, a);
    QuietReasons(s, a);
    assert forall i :: 0 <= i < |s.gate| ==> s.gate[i] in s.table;
    hide Shape;
    forall id | id in s.gate ensures id in t.table && SleeperSame(s, t, id) {
      if a.CancelRequest? { OnCancelRequest(s, a.id); CancelRecord(s, a, id); }
      else if a.CancelControl? { OnCancelControl(s, a.id); CancelRecord(s, a, id); }
      else { QuietTable(s, a, id); }
      if Refused(s, s.table[id]).None? { ReasonsStay(s, t, s.table[id]); }
      hide Refused;
      hide SameReasons;
    }
    hide SameReasons;
    hide SleeperSame;
    SleepersStay(s, t);
  }

  // -----------------------------------------------------------------
  // Actions that tell every sleeper
  // -----------------------------------------------------------------

  ghost predicate AllTold(s: Service) {
    forall id :: id in s.gate && id in s.table ==> !s.table[id].SleepsUnnotified()
  }

  lemma ToldMissNothing(s: Service)
    requires AllTold(s)
    ensures NobodyMissed(s)
  {
  }

  /** A change of admission that leaves the gate open or closed, and the deadline, tells nobody and need not. */
  lemma SameDoorWake(s: Service, t: Service)
    requires NobodyMissed(s) && t == s.(door := t.door, lastId := t.lastId)
    requires t.door.allowed == s.door.allowed && t.door.next == s.door.next
    ensures NobodyMissed(t)
  {
    if !s.end.failed {
      forall i | 0 <= i < |t.gate| && t.gate[i] in t.table && t.table[t.gate[i]].SleepsUnnotified()
        ensures RightlyAsleep(t, i, t.table[t.gate[i]])
      {
        assert RightlyAsleep(s, i, s.table[s.gate[i]]);
      }
    }
    hide RightlyAsleep;
  }

  lemma AdmissionWake(s: Service, revision: nat, allowed: bool)
    requires NobodyMissed(s) && Possible(s, AcceptAdmission(revision, allowed))
    ensures NobodyMissed(Apply(s, AcceptAdmission(revision, allowed)))
  {
    hide Apply;
    hide Enabled;
    hide NobodyMissed;
    OnAcceptAdmission(s, revision, allowed);
    var t := DoAcceptAdmission(s, revision, allowed);
    if !allowed { ToldMissNothing(t); } else { SameDoorWake(s, t); }
  }

  lemma ResumeWake(s: Service, revision: nat)
    requires NobodyMissed(s) && Possible(s, FinishResume(revision))
    ensures NobodyMissed(Apply(s, FinishResume(revision)))
  {
    hide Apply;
    hide Enabled;
    hide NobodyMissed;
    OnFinishResume(s, revision);
    var t := DoFinishResume(s, revision);
    if !s.end.closed && !s.end.failed && s.door.revision == revision { ToldMissNothing(t); }
    else { SameDoorWake(s, t); }
  }

  lemma CloseWake(s: Service)
    requires Shape(s) && Possible(s, BeginClose)
    ensures NobodyMissed(Apply(s, BeginClose))
  {
    hide Apply;
    hide Enabled;
    OnBeginClose(s);
    var t := DoBeginClose(s);
    forall id | id in t.gate && id in t.table ensures !t.table[id].SleepsUnnotified() {
      if s.table[id].phase.Waiting? { Places(s, id); }
    }
    hide Shape;
    ToldMissNothing(t);
  }

  lemma FatalWake(s: Service, a: Action)
    requires Possible(s, a) && (a.Fatal? || a.FatalSpawn?)
    ensures NobodyMissed(Apply(s, a))
  {
    assert Apply(s, a).end.failed;
    hide Apply;
    hide Enabled;
  }

  // -----------------------------------------------------------------
  // A change of a budget or of the reachable addresses
  // -----------------------------------------------------------------

  /** Everything a refusal looks at but the job. */
  predicate SameWorld(s: Service, t: Service) {
    t.budgets == s.budgets && t.net == s.net && t.clock == s.clock && t.end.closed == s.end.closed &&
    t.end.failed == s.end.failed
  }

  /** Every waiter of a bounty that is no longer below its stop has been told. */
  lemma BudgetWake(s: Service, s1: Service, t: Service, bounty: Bounty, id: JobId)
    requires id in s.table && id in s.gate && SameWorld(s1, t)
    requires s1 == s.(table := s1.table, budgets := s1.budgets, touched := s1.touched) && id in s1.table &&
             id in t.table
    requires t.table[id] == BudgetChanged(s1, bounty).table[id]
    requires s1.table[id] == s.table[id]
    requires s.table[id].bounty != bounty && s.table[id].bounty in s.budgets ==>
      s.table[id].bounty in s1.budgets && SameCount(s.budgets[s.table[id].bounty], s1.budgets[s.table[id].bounty])
    ensures SleeperSame(s, t, id)
  {
    ToldOrBelow(s1, bounty, id);
    hide BudgetChanged;
    var j := s.table[id];
    if t.table[id].SleepsUnnotified() && Refused(s, j).None? {
      if j.bounty == bounty { assert BudgetBelowStop(s1, bounty); }
    }
  }

  /** After a change a waiter of the bounty has been told, unless the bounty is still below its stop. */
  lemma ToldOrBelow(s: Service, bounty: Bounty, id: JobId)
    requires id in s.table && id in s.gate
    ensures id in BudgetChanged(s, bounty).table
    ensures var t := BudgetChanged(s, bounty);
      (t.table[id].SleepsUnnotified() ==>
         t.table[id] == s.table[id] && (s.table[id].bounty == bounty ==> BudgetBelowStop(s, bounty)))
  {
    hide BudgetBelowStop;
  }

  lemma CountedSleeper(s: Service, id: JobId, other: JobId)
    requires id in s.table && s.table[id].phase.Ended? && other in s.gate && other in s.table && other != id
    ensures other in DoRecord(s, id).table && SleeperSame(s, DoRecord(s, id), other)
  {
    hide SleeperSame;
    var j, t := s.table[id], DoRecord(s, id);
    if j.started && j.bounty in s.budgets {
      var b' := Counted(s.budgets[j.bounty], j.captured);
      var s1 := Put(s, id,
                    j.(successes := Some(b'.successes),
                       phase := Recorded(j.phase.cancel))).(budgets := s.budgets[j.bounty := b']);
      assert t == BudgetChanged(s1, j.bounty);
      hide DoRecord;
      assert SameWorld(s1, t);
      ToldOrBelow(s1, j.bounty, other);
      hide BudgetChanged;
      BudgetWake(s, s1, t, j.bounty, other);
    } else {
      SleeperHere(s, other);
      SleeperPut(s, s, id, t.table[id], other);
    }
  }

  lemma RecordGate(s: Service, id: JobId)
    requires id in s.table && s.table[id].phase.Ended?
    ensures SameGate(s, DoRecord(s, id))
  {
    hide BudgetBelowStop;
    hide Notify;
  }

  lemma RecordWake(s: Service, id: JobId)
    requires Shape(s) && NobodyMissed(s) && Possible(s, Record(id))
    ensures NobodyMissed(Apply(s, Record(id)))
  {
    hide Apply;
    hide Enabled;
    hide Shape;
    hide GateShape;
    hide NobodyMissed;
    hide SleeperSame;
    hide DoRecord;
    OnRecord(s, id);
    GateKnown(s);
    Places(s, id);
    forall other | other in s.gate
      ensures other in DoRecord(s, id).table && SleeperSame(s, DoRecord(s, id), other)
    {
      CountedSleeper(s, id, other);
    }
    RecordGate(s, id);
    SleepersStay(s, DoRecord(s, id));
  }

  /** A queued attempt has its budget in use, so no import drops the budget of a waiter. */
  lemma WaitersKeepBudget(s: Service, id: JobId, bounty: Bounty, target: nat, imported: Count, victim: Option<Bounty>)
    requires Shape(s) && UsersExact(s) && CanUseBudget(s, bounty, target, victim) && id in s.gate && id in s.table
    ensures var b, m := s.table[id].bounty, Import(s, bounty, target, imported, victim).budgets;
      b in s.budgets && b in m && (b != bounty ==> m[b] == s.budgets[b])
  {
    Places(s, id);
    var b := s.table[id].bounty;
    hide Shape;
    assert id in LiveAttempts(s, b);
    hide LiveAttempts;
    assert s.budgets[b].users > 0;
    Imported(s, bounty, target, imported, victim);
    hide Import;
  }

  /** What registering an attempt leaves for the others. */
  lemma SubmittedWorld(s: Service, id: JobId, domain: Domain, bounty: Bounty, target: nat, imported: Count,
                       victim: Option<Bounty>, spawn: bool)
    requires id !in s.table
    ensures var t, s1 := DoSubmitAttempt(s, id, domain, bounty, target, imported, victim,
                                         spawn), Import(s, bounty, target, imported, victim);
      SameWorld(s1, t) && SameGate(s, t) && forall other :: other in s.table ==>
        other in t.table && t.table[other] == BudgetChanged(s1, bounty).table[other]
  {
    hide StopCount;
    var s1 := Import(s, bounty, target, imported, victim);
    assert s1 == s.(budgets := s1.budgets, touched := s1.touched);
    BudgetChangedMarks(s1, bounty);
    hide Import;
    hide BudgetChanged;
    hide NoLiveAttempt;
  }

  lemma SubmitAttemptWake(s: Service, id: JobId, domain: Domain, bounty: Bounty, target: nat, imported: Count,
                          victim: Option<Bounty>, spawn: bool)
    requires Shape(s) && Counts(s) && NobodyMissed(s) &&
             Possible(s, SubmitAttempt(id, domain, bounty, target, imported, victim, spawn))
    ensures NobodyMissed(Apply(s, SubmitAttempt(id, domain, bounty, target, imported, victim, spawn)))
  {
    hide Apply;
    hide Enabled;
    hide Shape;
    hide GateShape;
    hide NobodyMissed;
    hide SleeperSame;
    hide DoSubmitAttempt;
    hide BudgetChanged;
    hide CanUseBudget;
    hide StopCount;
    hide PoolExact;
    hide UsersExact;
    OnSubmitAttempt(s, id, domain, bounty, target, imported, victim, spawn);
    FreshId(s, id);
    GateKnown(s);
    SubmittedWorld(s, id, domain, bounty, target, imported, victim, spawn);
    var s1, t := Import(s, bounty, target, imported,
                        victim), DoSubmitAttempt(s, id, domain, bounty, target, imported, victim, spawn);
    assert s1 == s.(budgets := s1.budgets, touched := s1.touched);
    forall other | other in s.gate ensures SleeperSame(s, t, other) {
      WaitersKeepBudget(s, other, bounty, target, imported, victim);
      hide Import;
      BudgetWake(s, s1, t, bounty, other);
    }
    SleepersStay(s, t);
  }

  /** An exclusion tells exactly the waiters that it concerns. */
  lemma ExcludeWake(s: Service, id: JobId, e: Endpoint, family: bool, victim: Option<Endpoint>,
                    familyVictim: Option<int>, u: Service)
    requires id in s.gate && id in s.table && u == Exclude(s, e, family, victim, familyVictim)
    ensures SleeperSame(s, u, id)
  {
    if family { } else { }
  }

  /** Replacing the record of another job changes nothing for a sleeper. */
  lemma SleeperPut(s: Service, u: Service, id: JobId, k: Job, other: JobId)
    requires other in s.table && other in u.table && other != id && SleeperSame(s, u, other)
    ensures SleeperSame(s, Put(u, id, k), other)
  {
  }

  lemma SleeperHere(s: Service, other: JobId)
    requires other in s.table
    ensures SleeperSame(s, s, other)
  {
  }

  /** The state between the exclusion of an address, if any, and the end of the capture. */
  function AfterExclusion(s: Service, j: Job, unreachable: Option<bool>, victim: Option<Endpoint>,
                          familyVictim: Option<int>): Service
    requires unreachable.Some? ==> j.endpoint.Some?
  {
    if unreachable.Some? then Exclude(s, j.endpoint.value, unreachable.value, victim, familyVictim) else s
  }

  lemma ExclusionGate(s: Service, j: Job, unreachable: Option<bool>, victim: Option<Endpoint>,
                      familyVictim: Option<int>)
    requires unreachable.Some? ==> j.endpoint.Some?
    ensures AfterExclusion(s, j, unreachable, victim, familyVictim).gate == s.gate
  {
  }

  lemma ExcludedSleeper(s: Service, j: Job, unreachable: Option<bool>, victim: Option<Endpoint>,
                        familyVictim: Option<int>, other: JobId)
    requires (unreachable.Some? ==> j.endpoint.Some?) && other in s.gate && other in s.table
    ensures var u := AfterExclusion(s, j, unreachable, victim, familyVictim);
      SleeperSame(s, u, other) && SameGate(s, u) && u.table.Keys == s.table.Keys
  {
    if unreachable.Some? {
      var u := Exclude(s, j.endpoint.value, unreachable.value, victim, familyVictim);
      ExcludeWake(s, other, j.endpoint.value, unreachable.value, victim, familyVictim, u);
      hide SleeperSame;
    } else {
      SleeperHere(s, other);
    }
  }

  lemma EndCaptureWake(s: Service, id: JobId, captured: bool, cancel: bool, unreachable: Option<bool>,
                       victim: Option<Endpoint>, familyVictim: Option<int>)
    requires Shape(s) && NobodyMissed(s) &&
             Possible(s, EndCapture(id, captured, cancel, unreachable, victim, familyVictim))
    ensures NobodyMissed(Apply(s, EndCapture(id, captured, cancel, unreachable, victim, familyVictim)))
  {
    hide Apply;
    hide Enabled;
    hide Shape;
    hide GateShape;
    hide NobodyMissed;
    hide SleeperSame;
    hide VictimsChosen;
    hide Exclude;
    OnEndCapture(s, id, captured, cancel, unreachable, victim, familyVictim);
    GateKnown(s);
    Places(s, id);
    var j, t := s.table[id], DoEndCapture(s, id, captured, cancel, unreachable, victim, familyVictim);
    var u := AfterExclusion(s, j, unreachable, victim, familyVictim);
    assert t == Put(u, id, t.table[id]);
    hide DoEndCapture;
    hide AfterExclusion;
    forall other | other in s.gate ensures other in t.table && SleeperSame(s, t, other) && SameGate(s, t) {
      ExcludedSleeper(s, j, unreachable, victim, familyVictim, other);
      SleeperPut(s, u, id, t.table[id], other);
    }
    if s.gate == [] {
      ExclusionGate(s, j, unreachable, victim, familyVictim);
      ToldMissNothing(t);
    } else {
      assert s.gate[0] in s.gate;
      SleepersStay(s, t);
    }
  }

  // -----------------------------------------------------------------
  // The gate itself
  // -----------------------------------------------------------------

  /**
    Who still sleeps after a job has left stood one place further back or in front of it, and is not the new head of a
    head's gate.
  */
  lemma ReleasedSleeper(s: Service, i: nat, k: Job, n: nat)
    requires GateShape(s) && i < |s.gate| && n < |s.gate| - 1
    requires var t := Release(s, i).table[s.gate[i] := k];
             s.gate[Shifted(i, n)] in t && t[s.gate[Shifted(i, n)]].SleepsUnnotified()
    ensures var t, id := Release(s, i).table[s.gate[i] := k], s.gate[Shifted(i, n)];
      Release(s, i).gate[n] == id && id in s.table && t[id] == s.table[id] && (i == 0 ==> n != 0)
  {
    var id := s.gate[Shifted(i, n)];
    assert id in s.table;
    GateDistinct(s, Shifted(i, n), i);
    if i == 0 { GateDistinct(s, 1, if n == 0 then 0 else n + 1); }
    hide GateShape;
    var rest := Without(s.gate, i);
    assert rest[n] == id;
    if i == 0 {
      assert Release(s, i).table == Notify(s.table, {rest[0]}) && rest[0] == s.gate[1];
    }
  }

  /** A job leaves the gate: its successor moves up, and is told when it becomes the head. */
  lemma ReleaseWake(s: Service, t: Service, i: nat, k: Job)
    requires GateShape(s) && i < |s.gate| && NobodyMissedBut(s, i)
    requires t == Release(s, i).(table := Release(s, i).table[s.gate[i] := k], door := t.door, log := t.log)
    requires t.door.allowed == s.door.allowed && (i == 0 || t.door.next == s.door.next)
    ensures NobodyMissed(t)
  {
    assert |t.gate| == |s.gate| - 1;
    forall n | 0 <= n < |t.gate| ensures t.gate[n] == s.gate[Shifted(i, n)] { }
    assert t == s.(gate := t.gate, table := t.table, door := t.door, log := t.log);
    if !t.end.failed {
      forall n | 0 <= n < |t.gate| && t.gate[n] in t.table && t.table[t.gate[n]].SleepsUnnotified()
        ensures RightlyAsleep(t, n, t.table[t.gate[n]])
      {
        ReleasedSleeper(s, i, k, n);
        hide Release;
        hide GateShape;
        assert RightlyAsleep(s, Shifted(i, n), s.table[t.gate[n]]);
        hide BudgetBelowStop;
      }
    }
    hide Release;
    hide GateShape;
    hide RightlyAsleep;
  }

  lemma RefusedWake(s: Service, i: nat, why: Refusal)
    requires GateShape(s) && i < |s.gate| && NobodyMissedBut(s, i)
    ensures NobodyMissed(Refuse(s, i, why))
  {
    hide NobodyMissed;
    hide NobodyMissedBut;
    RefuseIsRelease(s, i, why);
    hide Refuse;
    ReleaseWake(s, Refuse(s, i, why), i, s.table[s.gate[i]].(phase := Ended(false, why.Shutdown?)));
  }

  lemma RefuseIsRelease(s: Service, i: nat, why: Refusal)
    requires GateShape(s) && i < |s.gate|
    ensures Refuse(s, i, why) ==
            Release(s, i).(table :=
              Release(s, i).table[s.gate[i] := s.table[s.gate[i]].(phase := Ended(false, why.Shutdown?))])
  {
    var ids := ReleaseTable(s, i);
    hide GateShape;
    hide Notify;
  }

  lemma TurnWake(s: Service, i: nat)
    requires GateShape(s) && i < |s.gate| && NobodyMissedBut(s, i)
    ensures NobodyMissed(Turn(s, i))
  {
    hide Refuse;
    var id, t := s.gate[i], Turn(s, i);
    var why := Refused(s, s.table[id]);
    if why.Some? {
      RefusedWake(s, i, why.value);
    } else {
      assert t == Put(s, id, t.table[id]) && (t.table[id].SleepsUnnotified() ==> RightlyAsleep(t, i, t.table[id]));
      hide Turn;
      forall n | 0 <= n < |t.gate| && t.gate[n] in t.table && t.table[t.gate[n]].SleepsUnnotified() && !t.end.failed
        ensures RightlyAsleep(t, n, t.table[t.gate[n]])
      {
        if n != i {
          GateDistinct(s, n, i);
          assert RightlyAsleep(s, n, s.table[s.gate[n]]);
        }
      }
    }
  }

  lemma ArrivedSleepers(s: Service, id: JobId)
    requires GateShape(s) && NobodyMissed(s) && id in s.table && id !in s.gate
    ensures NobodyMissedBut(Arrived(s, id), |s.gate|)
  {
    hide GateShape;
    hide RightlyAsleep;
    var t := Arrived(s, id);
    forall k | 0 <= k < |t.gate| && k != |s.gate| && t.gate[k] in t.table && t.table[t.gate[k]].SleepsUnnotified() &&
    !t.end.failed
      ensures RightlyAsleep(t, k, t.table[t.gate[k]])
    {
      assert t.gate[k] == s.gate[k] && s.gate[k] in s.gate;
      assert RightlyAsleep(s, k, s.table[s.gate[k]]);
      ArrivalAlike(s, id, k, s.table[s.gate[k]]);
    }
  }

  lemma ArrivalAlike(s: Service, id: JobId, k: nat, j: Job)
    requires id in s.table && RightlyAsleep(s, k, j)
    ensures RightlyAsleep(Arrived(s, id), k, j)
  {
  }

  lemma NotYetInGate(s: Service, id: JobId)
    requires Shape(s) && id in s.table && s.table[id].phase.Capturing?
    ensures id !in s.gate
  {
    Places(s, id);
  }

  lemma GateKnown(s: Service)
    requires Shape(s)
    ensures GateShape(s) && forall id :: id in s.gate ==> id in s.table
  {
    assert forall i :: 0 <= i < |s.gate| ==> s.gate[i] in s.table;
  }

  lemma EnterWake(s: Service, id: JobId)
    requires Shape(s) && NobodyMissed(s) && Possible(s, EnterGate(id))
    ensures NobodyMissed(Apply(s, EnterGate(id)))
  {
    hide Apply;
    hide Enabled;
    hide Shape;
    hide GateShape;
    hide NobodyMissed;
    hide NobodyMissedBut;
    hide Turn;
    OnEnterGate(s, id);
    GateKnown(s);
    NotYetInGate(s, id);
    ArrivedGate(s, id);
    ArrivedSleepers(s, id);
    TurnWake(Arrived(s, id), |s.gate|);
  }

  lemma WakeWake(s: Service, i: nat)
    requires Shape(s) && NobodyMissed(s) && Possible(s, Wake(i))
    ensures NobodyMissed(Apply(s, Wake(i)))
  {
    hide Apply;
    hide Enabled;
    OnWake(s, i);
    assert GateShape(s);
    hide Shape;
    assert NobodyMissedBut(s, i);
    hide GateShape;
    hide NobodyMissed;
    TurnWake(s, i);
  }

  lemma AbandonWake(s: Service, i: nat)
    requires Shape(s) && NobodyMissed(s) && Possible(s, AbandonAck(i))
    ensures NobodyMissed(Apply(s, AbandonAck(i)))
  {
    hide Apply;
    hide Enabled;
    OnAbandonAck(s, i);
    assert GateShape(s);
    hide Shape;
    assert NobodyMissedBut(s, i);
    hide NobodyMissed;
    ReleaseWake(s, DoAbandonAck(s, i), i, s.table[s.gate[i]].(phase := Crashed));
  }

  lemma GrantedWake(s: Service, i: nat)
    requires GateShape(s) && i == 0 && i < |s.gate| && NobodyMissedBut(s, i) && s.config.rate >= 1
    ensures NobodyMissed(Grant(s, i))
  {
    hide Advance;
    hide NobodyMissed;
    hide NobodyMissedBut;
    ReleaseWake(s, Grant(s, i), i, s.table[s.gate[i]].(phase := Connected));
  }

  lemma GrantWake(s: Service, i: nat)
    requires Shape(s) && NobodyMissed(s) && Possible(s, GrantOrRefuse(i))
    ensures NobodyMissed(Apply(s, GrantOrRefuse(i)))
  {
    hide Apply;
    hide Enabled;
    hide Refused;
    hide Refuse;
    hide Grant;
    OnGrantOrRefuse(s, i);
    assert GateShape(s);
    hide Shape;
    assert NobodyMissedBut(s, i) && i == 0;
    hide NobodyMissed;
    hide NobodyMissedBut;
    hide GateShape;
    var why := Refused(s, s.table[s.gate[i]]);
    if why.Some? { RefusedWake(s, i, why.value); }
    else if s.door.allowed { GrantedWake(s, i); }
    else { PausedWake(s, i); }
  }

  lemma PausedWake(s: Service, i: nat)
    requires GateShape(s) && i < |s.gate| && NobodyMissedBut(s, i)
    ensures var id := s.gate[i]; NobodyMissed(Refuse(Put(s, id, s.table[id].(cancelRequested := true)), i, Shutdown))
  {
    hide Refuse;
    hide NobodyMissed;
    var id := s.gate[i];
    var s1 := Put(s, id, s.table[id].(cancelRequested := true));
    forall k | 0 <= k < |s.gate| && k != i ensures s.gate[k] != id { GateDistinct(s, k, i); }
    assert GateShape(s1);
    assert forall n, j :: RightlyAsleep(s, n, j) ==> RightlyAsleep(s1, n, j);
    hide RightlyAsleep;
    assert NobodyMissedBut(s1, i);
    hide NobodyMissedBut;
    hide GateShape;
    RefusedWake(s1, i, Shutdown);
  }

  // -----------------------------------------------------------------
  // Theorem
  // -----------------------------------------------------------------

  /** Theorem: in no interleaving is a wake-up lost before an output failure. */
  lemma WakeKept(s: Service, a: Action)
    requires Shape(s) && Counts(s) && NobodyMissed(s) && Possible(s, a)
    ensures NobodyMissed(Apply(s, a))
  {
    hide Shape;
    hide Counts;
    hide NobodyMissed;
    hide Apply;
    hide Enabled;
    match a
    case SubmitAttempt(id, domain, bounty, target, imported, victim, spawn) =>
      SubmitAttemptWake(s, id, domain, bounty, target, imported, victim, spawn);
    case AcceptAdmission(revision, allowed) => AdmissionWake(s, revision, allowed);
    case FinishResume(revision) => ResumeWake(s, revision);
    case BeginClose => CloseWake(s);
    case Fatal(_) => FatalWake(s, a);
    case FatalSpawn => FatalWake(s, a);
    case EnterGate(id) => EnterWake(s, id);
    case Wake(i) => WakeWake(s, i);
    case AbandonAck(i) => AbandonWake(s, i);
    case GrantOrRefuse(i) => GrantWake(s, i);
    case EndCapture(id, captured, cancel, unreachable, victim, familyVictim) =>
      EndCaptureWake(s, id, captured, cancel, unreachable, victim, familyVictim);
    case Record(id) => RecordWake(s, id);
    case _ => QuietWake(s, a);
  }
}
