/**
  The service as an object: the sections that walk over a container, written as
  loops over the fields of the service, and proved to take the steps of the
  state machine.
*/
module ServiceClass {
  import opened Outcomes
  import opened BudgetCutoff
  import opened ServiceState
  import opened ServiceSteps
  import opened ServiceShape

  /** Why a command is refused. */
  datatype CommandError = ShuttingDown | IdsMustIncrease | TooManyPending | BudgetCacheFull | TargetChanged

  /** One more notification. */
  lemma NotifyMore(t: map<JobId, Job>, told: set<JobId>, id: JobId)
    requires id in t
    ensures Notify(t, told + {id}) == Notify(t, told)[id := Notify(t, told)[id].Notified()]
  {
  }

  /** Telling waiters leaves open which attempts are wanted. */
  lemma WantedSame(s: Service, bounty: Bounty)
    ensures NoLiveAttempt(BudgetChanged(s, bounty)) == NoLiveAttempt(s)
  {
    var t := BudgetChanged(s, bounty);
    ToldAlike(s, bounty);
    hide BudgetChanged;
    if NoLiveAttempt(s) {
      forall id | id in t.live && id in t.table && t.table[id].attempt
        ensures t.table[id].Cancelled()
      {
        assert s.table[id].Cancelled();
      }
    } else {
      var id :| id in s.live && id in s.table && s.table[id].attempt && !s.table[id].Cancelled();
      assert t.table[id].attempt && !t.table[id].Cancelled();
    }
  }

  lemma ToldAlike(s: Service, bounty: Bounty)
    ensures BudgetChanged(s, bounty).live == s.live && BudgetChanged(s, bounty).table.Keys == s.table.Keys
    ensures forall id :: id in s.table ==> Alike(s.table[id], BudgetChanged(s, bounty).table[id])
  {
    hide Notify;
    hide Alike;
    if BudgetBelowStop(s, bounty) {
      forall id | id in s.table ensures Alike(s.table[id], s.table[id]) { AlikeSelf(s.table[id]); }
    } else {
      NotifiedAlike(s.table, set id | id in s.gate && id in s.table && s.table[id].bounty == bounty);
    }
  }

  lemma WantedAfterImport(s: Service, bounty: Bounty, target: nat, imported: Count, victim: Option<Bounty>)
    ensures NoLiveAttempt(BudgetChanged(Import(s, bounty, target, imported, victim), bounty)) == NoLiveAttempt(s)
  {
    hide StopCount;
    WantedSame(Import(s, bounty, target, imported, victim), bounty);
    hide BudgetChanged;
  }

  predicate Alike(j: Job, k: Job) {
    k.attempt == j.attempt && k.Cancelled() == j.Cancelled()
  }

  lemma AlikeSelf(j: Job)
    ensures Alike(j, j)
  {
  }

  lemma NotifiedAlike(t: map<JobId, Job>, ids: set<JobId>)
    ensures Notify(t, ids).Keys == t.Keys && forall id :: id in t ==>
      Alike(t[id], t[id]) && Alike(t[id], Notify(t, ids)[id])
  {
  }

  /** Erasing an id that stands once in a queue. */
  lemma {:induction false} EraseSplit(q: seq<JobId>, id: JobId, k: nat)
    requires k < |q| && q[k] == id && id !in q[..k]
    ensures Erase(q, id) == q[..k] + q[k + 1..]
  {
    if k > 0 {
      assert q[0] in q[..k];
      assert q[1..][..k - 1] == q[..k][1..];
      EraseSplit(q[1..], id, k - 1);
      assert q[..k] == [q[0]] + q[1..][..k - 1];
    }
  }

  lemma {:induction false} EraseAbsent(q: seq<JobId>, id: JobId)
    requires id !in q
    ensures Erase(q, id) == q
  {
    if q != [] { EraseAbsent(q[1..], id); }
  }

  class ClaimsService {
    const config: Config
    var table: map<JobId, Job>
    var live: set<JobId>
    var gate: seq<JobId>
    var tls: Line
    var dns: Line
    var budgets: map<Bounty, Budget>
    var net: Net
    var door: Door
    var end: Ending
    var clock: Clock
    var lastId: nat
    var touched: nat
    var log: Log

    function State(): Service
      reads this
    {
      Service(config, table, live, gate, tls, dns, budgets, net, door, end, clock, lastId, touched, log)
    }

    constructor (c: Config, start: real)
      ensures State() == Init(c, start)
    {
      config, table, live, gate := c, map[], {}, [];
      tls, dns := Line([], 0, 0, {}), Line([], 0, 0, {});
      budgets, net := map[], Net(map[], map[], map[]);
      door := Door(0.0, true, true, 0, map[], 0, 0);
      end, clock := Ending(false, false, false, {}, false), Clock(start, start);
      lastId, touched, log := 0, 0, Log([], [], 0);
    }

    // ---------------------------------------------------------------
    // Notifications
    // ---------------------------------------------------------------

    /** A pause and a resume notify every waiter. */
    method NotifyEveryWaiter()
      requires forall id :: id in gate ==> id in table
      modifies this`table
      ensures State() == NotifyGate(old(State()))
    {
      ghost var before, told := table, {};
      NotifyNobody(before);
      for k := 0 to |gate|
        invariant table == Notify(before, told) && told == set id | id in gate[..k]
      {
        assert gate[..k + 1] == gate[..k] + [gate[k]];
        NotifyMore(before, told, gate[k]);
        table := table[gate[k] := table[gate[k]].Notified()];
        told := told + {gate[k]};
      }
      assert gate[..|gate|] == gate;
    }

    method BudgetChangedLocked(bounty: Bounty)
      requires forall id :: id in gate ==> id in table
      requires bounty in budgets
      modifies this`table
      ensures State() == BudgetChanged(old(State()), bounty)
    {
      if budgets[bounty].successes < budgets[bounty].stop { return; }
      ghost var before, told := table, {};
      NotifyNobody(before);
      for k := 0 to |gate|
        invariant table == Notify(before, told) && told == set id | id in gate[..k] && before[id].bounty == bounty
      {
        assert gate[..k + 1] == gate[..k] + [gate[k]];
        if table[gate[k]].bounty == bounty {
          NotifyMore(before, told, gate[k]);
          table := table[gate[k] := table[gate[k]].Notified()];
          told := told + {gate[k]};
        }
      }
      assert gate[..|gate|] == gate;
      assert told == set id | id in gate && id in before && before[id].bounty == bounty;
    }

    /** RequestCancelLocked for every registered job, as Close and Fatal do. */
    method CancelEveryJob()
      requires live <= table.Keys
      modifies this`table
      ensures State() == CancelAll(old(State()))
    {
      ghost var before := table;
      var todo := live;
      while todo != {}
        invariant todo <= live && table.Keys == before.Keys
        invariant forall id :: id in before ==>
          table[id] == if id in live && id !in todo then before[id].(cancelRequested := true).Notified() else before[id]
        decreases |todo|
      {
        var id :| id in todo;
        table := table[id := table[id].(cancelRequested := true).Notified()];
        todo := todo - {id};
      }
    }

    // ---------------------------------------------------------------
    // Retiring
    // ---------------------------------------------------------------

    /** std::erase on a pending queue, whose ids are distinct. */
    static method EraseQueued(q: seq<JobId>, id: JobId) returns (r: seq<JobId>)
      ensures r == Erase(q, id)
    {
      hide Erase;
      var k := 0;
      while k < |q| && q[k] != id
        invariant 0 <= k <= |q| && id !in q[..k]
      {
        k := k + 1;
      }
      if k < |q| {
        EraseSplit(q, id, k);
        r := q[..k] + q[k + 1..];
      } else {
        assert q[..k] == q;
        EraseAbsent(q, id);
        r := q;
      }
    }

    /** Unregister a job once and give back what it reserved. */
    method RetireLocked(id: JobId)
      requires id in table && Increasing(tls.pending) && Increasing(dns.pending)
      requires table[id].attempt && id in live ==> table[id].bounty in budgets && budgets[table[id].bounty].users > 0
      modifies this`live, this`tls, this`dns, this`budgets
      ensures State() == Retire(old(State()), id)
    {
      if id !in live { return; }
      var j := table[id];
      live := live - {id};
      if j.running {
        if j.attempt { tls := tls.(active := tls.active - 1); } else { dns := dns.(active := dns.active - 1); }
      } else if j.attempt {
        var q := EraseQueued(tls.pending, id);
        tls := tls.(pending := q);
      } else {
        var q := EraseQueued(dns.pending, id);
        dns := dns.(pending := q);
      }
      if j.attempt {
        var b := budgets[j.bounty];
        budgets := budgets[j.bounty := b.(users := b.users - 1)];
      }
    }

    // ---------------------------------------------------------------
    // Commands
    // ---------------------------------------------------------------

    /** The scan for the least recently used budget that nobody uses. */
    method OldestUnusedBudget() returns (oldest: Option<Bounty>)
      ensures oldest.Some? ==> OldestUnused(State(), oldest.value)
      ensures oldest.None? ==> forall b :: b in budgets ==> budgets[b].users != 0
    {
      oldest := None;
      var todo := budgets.Keys;
      while todo != {}
        invariant todo <= budgets.Keys
        invariant oldest.None? ==> forall b :: b in budgets && b !in todo ==> budgets[b].users != 0
        invariant oldest.Some? ==> oldest.value in budgets && budgets[oldest.value].users == 0
        invariant oldest.Some? ==>
          forall b :: b in budgets && b !in todo && budgets[b].users == 0 ==>
            budgets[oldest.value].touched <= budgets[b].touched
        decreases |todo|
      {
        var item :| item in todo;
        if budgets[item].users == 0 && (oldest.None? || budgets[item].touched < budgets[oldest.value].touched) {
          oldest := Some(item);
        }
        todo := todo - {item};
      }
    }

    /** Whether no attempt is still wanted; an idle service lets the next permit start afresh. */
    method NoneWanted() returns (none: bool)
      ensures none == NoLiveAttempt(State())
    {
      var todo := live;
      while todo != {}
        invariant todo <= live
        invariant forall id :: id in live && id !in todo && id in table && table[id].attempt ==> table[id].Cancelled()
        decreases |todo|
      {
        var id :| id in todo;
        if id in table && table[id].attempt && !table[id].Cancelled() { return false; }
        todo := todo - {id};
      }
      return true;
    }

    /** Register a job at the end of its queue and start a worker when the pool is short of one. */
    method Enqueue(id: JobId, j: Job, spawn: bool)
      modifies this`table, this`live, this`lastId, this`tls, this`dns, this`end
      ensures State() == Submit(old(State()), id, j, spawn)
    {
      lastId, live, table := id, live + {id}, table[id := j];
      var line := if j.attempt then tls else dns;
      line := line.(pending := line.pending + [id]);
      var demand := |line.pending| + line.active;
      var limit := if j.attempt then config.concurrency else DNS_WORKERS;
      if line.workers < limit && line.workers < demand {
        if spawn { line := line.(workers := line.workers + 1); } else { end := end.(spawnFailed := true); }
      }
      if j.attempt { tls := line; } else { dns := line; }
    }

    /** Evict, create if need be, and import the controller's count. */
    method ImportBudget(bounty: Bounty, target: nat, imported: Count, victim: Option<Bounty>)
      requires CanUseBudget(State(), bounty, target, victim)
      modifies this`budgets, this`touched
      ensures State() == Import(old(State()), bounty, target, imported, victim)
    {
      hide StopCount;
      ghost var was := State();
      if victim.Some? { budgets := budgets - {victim.value}; }
      if bounty !in budgets {
        budgets := budgets[bounty := Budget(target, StopCount(target), imported, 0, 0, imported)];
      }
      var b := budgets[bounty];
      touched := touched + 1;
      b := b.(successes := if b.successes >= imported then b.successes else imported, users := b.users + 1,
              touched := touched, largestImport := if b.largestImport >= imported then b.largestImport else imported);
      budgets := budgets[bounty := b];
      ghost var kept := if victim.Some? then was.budgets - {victim.value} else was.budgets;
      assert budgets == kept[bounty := b];
    }

    /** The budget part of an attempt command: evict, create, import, and tell the waiters. */
    method UseBudget(bounty: Bounty, target: nat, imported: Count)
      returns (error: Option<CommandError>, victim: Option<Bounty>)
      requires forall k :: k in gate ==> k in table
      modifies this`budgets, this`touched, this`table
      ensures error.None? <==> exists v :: CanUseBudget(old(State()), bounty, target, v)
      ensures error.None? ==> CanUseBudget(old(State()), bounty, target, victim)
      ensures error.None? ==> State() == BudgetChanged(Import(old(State()), bounty, target, imported, victim), bounty)
      ensures error.Some? ==> State() == old(State())
    {
      victim := None;
      if bounty in budgets {
        assert CanUseBudget(State(), bounty, target, None) <==> budgets[bounty].target == target;
        if budgets[bounty].target != target { return Some(TargetChanged), None; }
      } else if |budgets| >= MAX_BUDGETS {
        victim := OldestUnusedBudget();
        if victim.None? { return Some(BudgetCacheFull), None; }
      }
      assert CanUseBudget(State(), bounty, target, victim);
      hide CanUseBudget;
      hide StopCount;
      ImportBudget(bounty, target, imported, victim);
      BudgetChangedLocked(bounty);
      error := None;
    }

    /** The attempt command: accepted exactly when the step is possible, and without effect when refused. */
    method CommandAttempt(id: JobId, domain: Domain, bounty: Bounty, target: nat, imported: Count, spawn: bool)
      returns (error: Option<CommandError>, victim: Option<Bounty>)
      requires 1 <= id && forall k :: k in gate ==> k in table
      modifies this
      ensures error.None? <==> CanSubmit(old(State()), id) && exists v :: CanUseBudget(old(State()), bounty, target, v)
      ensures error.None? ==> CanUseBudget(old(State()), bounty, target, victim)
      ensures error.None? ==>
        State() == DoSubmitAttempt(old(State()), id, domain, bounty, target, imported, victim, spawn)
      ensures error.Some? ==> State() == old(State())
    {
      hide CanUseBudget;
      hide StopCount;
      hide NoLiveAttempt;
      hide BudgetChanged;
      hide Submit;
      ghost var was := State();
      victim := None;
      if end.closed { return Some(ShuttingDown), None; }
      if id <= lastId { return Some(IdsMustIncrease), None; }
      if |live| >= config.pendingLimit { return Some(TooManyPending), None; }
      error, victim := UseBudget(bounty, target, imported);
      if error.Some? { return; }
      var none := NoneWanted();
      assert NoLiveAttempt(State()) == NoLiveAttempt(was) by {
        WantedAfterImport(was, bounty, target, imported, victim);
      }
      if none { door := door.(idle := true); }
      Enqueue(id, NewJob(true, domain, bounty), spawn);
    }

    // ---------------------------------------------------------------
    // The connection gate
    // ---------------------------------------------------------------

    /** Leave the gate: erase the position, and wake the successor of a head. */
    method LeaveGate(i: nat)
      requires i < |gate| && forall id :: id in gate ==> id in table
      modifies this`gate, this`table
      ensures State() == Release(old(State()), i)
    {
      gate := gate[..i] + gate[i + 1..];
      if i == 0 && gate != [] {
        assert gate[0] in old(gate);
        NotifyNobody(table);
        NotifyMore(table, {}, gate[0]);
        assert {} + {gate[0]} == {gate[0]};
        table := table[gate[0] := table[gate[0]].Notified()];
      }
    }

    method SetJobPhase(id: JobId, p: Phase)
      requires id in table
      modifies this`table
      ensures State() == SetPhase(old(State()), id, p)
    {
      table := table[id := table[id].(phase := p)];
    }

    /** BeforeStartLocked. */
    method BeforeStart(j: Job) returns (why: Option<Refusal>)
      requires j.bounty in budgets
      ensures why == Refused(State(), j)
    {
      if end.closed || end.failed || j.Cancelled() { return Some(Shutdown); }
      if j.endpoint.Some? {
        var e := j.endpoint.value;
        if e.family in net.families && net.families[e.family] > clock.reach { return Some(Excluded); }
        if e in net.routes && net.routes[e] > clock.reach { return Some(Excluded); }
      }
      var b := budgets[j.bounty];
      if b.successes >= b.stop { return Some(Exhausted); }
      return None;
    }

    /** One turn of the waiting loop for the job at index i. */
    method ConnectingTurn(i: nat)
      requires i < |gate| && forall id :: id in gate ==> id in table
      requires table[gate[i]].bounty in budgets
      modifies this`gate, this`table
      ensures State() == Turn(old(State()), i)
    {
      var id := gate[i];
      var why := BeforeStart(table[id]);
      if why.Some? {
        LeaveGate(i);
        SetJobPhase(id, Ended(false, why.value.Shutdown?));
      } else if !door.allowed || i != 0 {
        SetJobPhase(id, Waiting(Untimed(false)));
      } else if door.next <= clock.now {
        table := table[id := table[id].(phase := Acking, started := true)];
      } else {
        SetJobPhase(id, Waiting(Timed(false, door.next)));
      }
    }

    /** The turn after the started frame has been written: every condition is checked again. */
    method AfterAcknowledgement(i: nat)
      requires config.rate >= 1 && i < |gate| && forall id :: id in gate ==> id in table
      requires table[gate[i]].bounty in budgets
      modifies this`gate, this`table, this`door, this`log
      ensures State() == DoGrantOrRefuse(old(State()), i)
    {
      var id := gate[i];
      var why := BeforeStart(table[id]);
      if why.Some? {
        LeaveGate(i);
        SetJobPhase(id, Ended(false, why.value.Shutdown?));
      } else if !door.allowed {
        table := table[id := table[id].(cancelRequested := true)];
        LeaveGate(i);
        SetJobPhase(id, Ended(false, true));
      } else {
        var base := door.next;
        if door.idle && base < clock.now { base := clock.now; }
        base := base + 1.0 / config.rate as real;
        if base < clock.now - 1.0 { base := clock.now - 1.0; }
        log := log.(permits := log.permits + [Permit(id, table[id].ticket, clock.now)]);
        door := door.(next := base, idle := false);
        LeaveGate(i);
        SetJobPhase(id, Connected);
      }
    }

    /** The first section of an admission command; a pause closes the gate before it is acknowledged. */
    method AcceptAdmissionCommand(revision: nat, allowed: bool) returns (error: Option<CommandError>)
      requires forall id :: id in gate ==> id in table
      modifies this`door, this`lastId, this`table
      ensures error.None? <==> !old(end).closed && !old(end).failed && old(lastId) < revision
      ensures State() == if error.None? then DoAcceptAdmission(old(State()), revision, allowed) else old(State())
    {
      if end.closed || end.failed { return Some(ShuttingDown); }
      if revision <= lastId { return Some(IdsMustIncrease); }
      lastId := revision;
      door := door.(revision := revision, admissions := door.admissions[revision := Unacknowledged(allowed)]);
      if !allowed {
        door := door.(allowed := false, lastPause := revision);
        NotifyEveryWaiter();
      }
      return None;
    }

    /** The last section of a resume, after its acknowledgement: a newer command wins. */
    method FinishResumeCommand(revision: nat)
      requires forall id :: id in gate ==> id in table
      modifies this`door, this`table
      ensures State() == DoFinishResume(old(State()), revision)
    {
      door := door.(admissions := door.admissions - {revision});
      if !end.closed && !end.failed && door.revision == revision {
        if !door.allowed && door.next < clock.now { door := door.(next := clock.now); }
        door := door.(allowed := true, openedBy := revision);
        NotifyEveryWaiter();
      }
    }

    /** The count of a finished capture, in the section that owns the budget. */
    method CountCapture(id: JobId)
      requires id in table && table[id].phase.Ended? && table[id].bounty in budgets && forall k :: k in gate ==>
        k in table
      modifies this`table, this`budgets
      ensures State() == DoRecord(old(State()), id)
    {
      var j := table[id];
      if !j.started { table := table[id := j.(phase := Judging(j.phase.cancel))]; return; }
      var b := budgets[j.bounty];
      if j.captured && b.successes != MAX_COUNT { b := b.(successes := b.successes + 1); }
      budgets := budgets[j.bounty := b];
      table := table[id := j.(successes := Some(b.successes), phase := Recorded(j.phase.cancel))];
      BudgetChangedLocked(j.bounty);
    }
  }
}
