/**
  The counters of the service are exact in every reachable state: running
  attempts, users of a budget, workers of a pool, and the sizes of the caches.
*/
module ServiceCounts {
  import opened Outcomes
  import opened BudgetCutoff
  import opened ServiceState
  import opened ServiceSteps
  import opened ServiceActions
  import opened ServiceShape
  import opened ServiceGraph
  import opened ServiceRecords

  function Min(a: int, b: int): int {
    if a <= b then a else b
  }

  /** Attempts have as many workers as the controller allows, resolutions two. */
  function MostWorkers(s: Service, attempt: bool): nat {
    if attempt then s.config.concurrency else 2
  }

  /**
    A pool counts its running jobs, stays within its limit, and is never short of a worker unless one failed to start.
  */
  ghost predicate PoolExact(s: Service, attempt: bool) {
    var line := s.LineOf(attempt);
    line.active == |RunningLive(s, attempt)| &&
    |line.busy| <= line.workers <= MostWorkers(s, attempt) &&
    (s.end.spawnFailed || Min(MostWorkers(s, attempt), |line.pending| + line.active) <= line.workers)
  }

  /** Every live attempt has its budget, and every budget counts its live attempts. */
  ghost predicate UsersExact(s: Service) {
    (forall id :: id in s.live && id in s.table && s.table[id].attempt ==> s.table[id].bounty in s.budgets) &&
    (forall bounty :: bounty in s.budgets ==>
      s.budgets[bounty].users == |LiveAttempts(s, bounty)| &&
      s.budgets[bounty].stop == StopCount(s.budgets[bounty].target))
  }

  ghost predicate Bounded(s: Service) {
    |s.live| <= s.config.pendingLimit && |s.budgets| <= MAX_BUDGETS && |s.net.dns| <= MAX_DNS &&
    |s.net.routes| <= MAX_UNREACHABLE_ENDPOINTS && |s.net.families| <= MAX_UNREACHABLE_FAMILIES &&
    (forall d :: d in s.net.dns ==> |s.net.dns[d].endpoints| <= MAX_ENDPOINTS)
  }

  ghost predicate Tallies(s: Service) {
    PoolExact(s, true) && PoolExact(s, false) && UsersExact(s)
  }

  ghost predicate Counts(s: Service) {
    Tallies(s) && Bounded(s)
  }

  // -----------------------------------------------------------------
  // Actions that neither register, start nor retire a job
  // -----------------------------------------------------------------

  predicate Rebooks(a: Action) {
    a.SubmitAttempt? || a.SubmitResolve? || a.Take? || a.CancelQueued? || a.RetireJob? || a.Leave?
  }

  /** What the counters are computed from. */
  predicate SameBooks(s: Service, t: Service) {
    t.config == s.config && t.live == s.live && t.tls == s.tls && t.dns == s.dns &&
    t.end.spawnFailed == s.end.spawnFailed &&
    t.budgets.Keys == s.budgets.Keys &&
    forall b :: b in s.budgets ==>
      t.budgets[b].users == s.budgets[b].users && t.budgets[b].target == s.budgets[b].target &&
      t.budgets[b].stop == s.budgets[b].stop
  }

  lemma Booked(s: Service, t: Service)
    requires t.config == s.config && t.live == s.live && t.tls == s.tls && t.dns == s.dns &&
             t.end.spawnFailed == s.end.spawnFailed
    requires t.budgets == s.budgets ||
             exists b, n :: b in s.budgets && t.budgets == s.budgets[b := s.budgets[b].(successes := n)]
    ensures SameBooks(s, t)
  {
  }

  lemma QuietBooks(s: Service, a: Action)
    requires Possible(s, a) && !Rebooks(a)
    ensures SameBooks(s, Apply(s, a))
  {
    hide Apply;
    hide Enabled;
    hide SameBooks;
    StaysWithin(s, a);
    EndKept(s, a);
    if a.Record? { OnRecord(s, a.id); }
    Booked(s, Apply(s, a));
  }

  /** Same live jobs with the same marks: the same sets to count. */
  lemma SameLive(s: Service, t: Service)
    requires t.live == s.live
    requires forall id :: id in s.live && id in s.table ==>
      id in t.table && t.table[id].attempt == s.table[id].attempt && t.table[id].bounty == s.table[id].bounty &&
      t.table[id].running == s.table[id].running
    requires forall id :: id in s.live && id in t.table ==> id in s.table
    ensures forall attempt :: RunningLive(t, attempt) == RunningLive(s, attempt)
    ensures forall bounty :: LiveAttempts(t, bounty) == LiveAttempts(s, bounty)
  {
  }

  lemma JobsAlike(s: Service, a: Action)
    requires Shape(s) && Records(s) && Possible(s, a) && !a.Take?
    ensures forall id :: id in s.table ==> id in Apply(s, a).table && SameMarks(s.table[id], Apply(s, a).table[id])
  {
    JobsFollowGraph(s, a);
    hide Shape;
    hide Enabled;
    hide Apply;
    var t := Apply(s, a);
    forall id | id in s.table ensures id in t.table && SameMarks(s.table[id], t.table[id]) {
      assert Follows(s, t, a, id);
      hide Rank;
      hide Coherent;
      if !Still(s.table[id], t.table[id]) { EdgeMoves(a, s.table[id], t.table[id]); }
    }
  }

  predicate SameMarks(j: Job, k: Job) {
    k.attempt == j.attempt && k.bounty == j.bounty && k.running == j.running
  }

  lemma QuietCounts(s: Service, a: Action)
    requires Shape(s) && Records(s) && Counts(s) && Possible(s, a) && !Rebooks(a)
    ensures Tallies(Apply(s, a))
  {
    assert s.config.rate >= 1 && s.live <= s.table.Keys;
    JobsAlike(s, a);
    QuietBooks(s, a);
    hide Shape;
    hide Enabled;
    hide Apply;
    SameBooksCount(s, Apply(s, a));
  }

  lemma SameBooksCount(s: Service, t: Service)
    requires Tallies(s) && SameBooks(s, t) && s.live <= s.table.Keys
    requires forall id :: id in s.table ==> id in t.table && SameMarks(s.table[id], t.table[id])
    ensures Tallies(t)
  {
    SameLive(s, t);
    hide RunningLive;
    hide LiveAttempts;
    hide StopCount;
  }

  // -----------------------------------------------------------------
  // Retiring a job
  // -----------------------------------------------------------------

  lemma Less<T>(a: set<T>, x: T)
    ensures |a - {x}| == |a| - if x in a then 1 else 0
  {
    if x in a { assert a == (a - {x}) + {x}; } else { assert a - {x} == a; }
  }

  lemma More<T>(a: set<T>, x: T)
    ensures |a + {x}| == |a| + if x in a then 0 else 1
  {
    if x in a { assert a + {x} == a; }
  }

  /** Everything about jobs other than id that is counted. */
  predicate OthersAlike(s: Service, t: Service, id: JobId) {
    t.table.Keys == s.table.Keys &&
    forall other :: other in s.table ==>
      t.table[other].attempt == s.table[other].attempt && t.table[other].bounty == s.table[other].bounty &&
      (other != id ==> t.table[other].running == s.table[other].running)
  }

  lemma RetiredSets(s: Service, t: Service, id: JobId)
    requires t.live == s.live - {id} && OthersAlike(s, t, id)
    ensures forall attempt :: RunningLive(t, attempt) == RunningLive(s, attempt) - {id}
    ensures forall bounty :: LiveAttempts(t, bounty) == LiveAttempts(s, bounty) - {id}
  {
  }

  /** What Shape says about the queue of a job that is retired. */
  lemma RetireReady(s: Service, id: JobId)
    requires Shape(s) && id in s.table
    ensures s.live <= s.table.Keys && Increasing(s.LineOf(s.table[id].attempt).pending)
    ensures id in s.live ==> s.table[id].running || id in s.LineOf(s.table[id].attempt).pending
  {
    assert LineShape(s, s.table[id].attempt) && JobShape(s, id);
  }

  lemma RetireCounts(s: Service, t: Service, id: JobId)
    requires Shape(s) && Tallies(s) && id in s.table && OthersAlike(s, t, id)
    requires t.config == s.config && t.live == s.live - {id} && t.budgets == Retire(s, id).budgets &&
             t.end.spawnFailed == s.end.spawnFailed
    requires t.tls == Retire(s, id).tls.(busy := t.tls.busy) && t.tls.busy <= s.tls.busy
    requires t.dns == Retire(s, id).dns.(busy := t.dns.busy) && t.dns.busy <= s.dns.busy
    ensures Tallies(t)
  {
    hide Shape;
    hide PoolExact;
    hide UsersExact;
    RetireReady(s, id);
    RetiredSets(s, t, id);
    RetireUsers(s, t, id);
    RetireOwnPool(s, t, id, s.table[id].attempt);
    RetireOtherPool(s, t, id, !s.table[id].attempt);
  }

  lemma RetireUsers(s: Service, t: Service, id: JobId)
    requires UsersExact(s) && id in s.table && OthersAlike(s, t, id) && s.live <= s.table.Keys
    requires t.live == s.live - {id} && t.budgets == if id in s.live then Unuse(s.budgets, s.table[id]) else s.budgets
    requires forall bounty :: LiveAttempts(t, bounty) == LiveAttempts(s, bounty) - {id}
    ensures UsersExact(t)
  {
    hide StopCount;
    hide UsersExact;
    forall bounty | bounty in t.budgets ensures BudgetExact(t, bounty) { RetiredExact(s, t, id, bounty); }
    forall other | other in t.live && other in t.table && t.table[other].attempt
      ensures t.table[other].bounty in t.budgets
    {
      KnownBudget(s, other);
    }
    hide LiveAttempts;
    ExactFrom(t);
  }

  lemma KnownBudget(s: Service, id: JobId)
    requires UsersExact(s) && id in s.live && id in s.table && s.table[id].attempt
    ensures s.table[id].bounty in s.budgets
  {
    hide StopCount;
    hide LiveAttempts;
  }

  lemma RetiredExact(s: Service, t: Service, id: JobId, bounty: Bounty)
    requires UsersExact(s) && id in s.table && bounty in t.budgets
    requires t.budgets == if id in s.live then Unuse(s.budgets, s.table[id]) else s.budgets
    requires LiveAttempts(t, bounty) == LiveAttempts(s, bounty) - {id}
    ensures BudgetExact(t, bounty)
  {
    hide StopCount;
    assert id in LiveAttempts(s, bounty) <==> id in s.live && s.table[id].attempt && s.table[id].bounty == bounty;
    hide LiveAttempts;
    ExactOf(s, bounty);
    Less(LiveAttempts(s, bounty), id);
  }

  /** The pool of the other kind loses at most a worker's hold. */
  lemma RetireOtherPool(s: Service, t: Service, id: JobId, attempt: bool)
    requires PoolExact(s, attempt) && id in s.table && s.table[id].attempt != attempt
    requires t.config == s.config && t.end.spawnFailed == s.end.spawnFailed
    requires RunningLive(t, attempt) == RunningLive(s, attempt) - {id}
    requires t.LineOf(attempt) == s.LineOf(attempt).(busy := t.LineOf(attempt).busy) &&
             t.LineOf(attempt).busy <= s.LineOf(attempt).busy
    ensures PoolExact(t, attempt)
  {
    assert id !in RunningLive(s, attempt);
    Less(RunningLive(s, attempt), id);
    Fewer(t.LineOf(attempt).busy, s.LineOf(attempt).busy);
  }

  lemma RetireOwnPool(s: Service, t: Service, id: JobId, attempt: bool)
    requires PoolExact(s, attempt) && id in s.table && s.table[id].attempt == attempt &&
             Increasing(s.LineOf(attempt).pending)
    requires id in s.live ==> (s.table[id].running || id in s.LineOf(attempt).pending)
    requires t.config == s.config && t.end.spawnFailed == s.end.spawnFailed
    requires RunningLive(t, attempt) == RunningLive(s, attempt) - {id}
    requires t.LineOf(attempt) ==
             (if id in s.live then Vacate(s.LineOf(attempt), id, s.table[id].running)
              else s.LineOf(attempt)).(busy := t.LineOf(attempt).busy)
    requires t.LineOf(attempt).busy <= s.LineOf(attempt).busy
    ensures PoolExact(t, attempt)
  {
    EraseMembers(s.LineOf(attempt).pending, id);
    Less(RunningLive(s, attempt), id);
    Fewer(t.LineOf(attempt).busy, s.LineOf(attempt).busy);
    assert id in RunningLive(s, attempt) <==> id in s.live && s.table[id].running;
    hide Erase;
    hide RunningLive;
    hide Increasing;
  }

  lemma Fewer<T>(a: set<T>, b: set<T>)
    requires a <= b
    ensures |a| <= |b|
  {
    if a != {} {
      var x :| x in a;
      Less(a, x);
      Less(b, x);
      Fewer(a - {x}, b - {x});
    }
  }

  lemma LiveKnown(s: Service)
    requires Shape(s)
    ensures s.live <= s.table.Keys
  {
  }

  lemma CancelledTallies(s: Service, id: JobId)
    requires Shape(s) && Tallies(s) && id in s.table
    ensures Tallies(DoCancelQueued(s, id))
  {
    hide Shape;
    hide Tallies;
    LiveKnown(s);
    var t := DoCancelQueued(s, id);
    if id in s.live && !s.table[id].running {
      var r := Retire(s, id);
      assert Retire(s.(end := t.end), id) == r.(end := t.end);
      assert t == r.(end := t.end, table := t.table);
      hide DoCancelQueued;
      hide Retire;
      RetireCounts(s, t, id);
    } else {
      SameBooksCount(s, t);
    }
  }

  lemma CancelQueuedCounts(s: Service, id: JobId)
    requires Shape(s) && Counts(s) && Possible(s, CancelQueued(id))
    ensures Tallies(Apply(s, CancelQueued(id)))
  {
    hide Apply;
    hide Enabled;
    hide Shape;
    hide Tallies;
    hide DoCancelQueued;
    OnCancelQueued(s, id);
    CancelledTallies(s, id);
  }

  lemma RetiredTallies(s: Service, id: JobId)
    requires Shape(s) && Tallies(s) && id in s.table && s.table[id].phase.Reporting?
    ensures Tallies(DoRetireJob(s, id))
  {
    hide Shape;
    hide Tallies;
    var r, t := Retire(s, id), DoRetireJob(s, id);
    assert t == r.(table := t.table) && OthersAlike(s, t, id);
    hide DoRetireJob;
    hide OthersAlike;
    RetireCounts(s, t, id);
  }

  lemma RetireJobCounts(s: Service, id: JobId)
    requires Shape(s) && Counts(s) && Possible(s, RetireJob(id))
    ensures Tallies(Apply(s, RetireJob(id)))
  {
    hide Apply;
    hide Enabled;
    hide Shape;
    hide Tallies;
    hide DoRetireJob;
    OnRetireJob(s, id);
    RetiredTallies(s, id);
  }

  lemma LeftTallies(s: Service, id: JobId)
    requires Shape(s) && Tallies(s) && id in s.table
    ensures Tallies(DoLeave(s, id))
  {
    hide Shape;
    hide Tallies;
    var r, t := Retire(s, id), DoLeave(s, id);
    RetireCounts(s, t, id);
  }

  lemma LeaveCounts(s: Service, id: JobId)
    requires Shape(s) && Counts(s) && Possible(s, Leave(id))
    ensures Tallies(Apply(s, Leave(id)))
  {
    hide Apply;
    hide Enabled;
    hide Shape;
    hide Tallies;
    hide DoLeave;
    OnLeave(s, id);
    LeftTallies(s, id);
  }

  // -----------------------------------------------------------------
  // Starting a job
  // -----------------------------------------------------------------

  lemma TakenSets(s: Service, t: Service, id: JobId)
    requires id in s.table && id in s.live && !s.table[id].running && t.live == s.live
    requires t.table == s.table[id := s.table[id].(phase := Taken, running := true)]
    ensures RunningLive(t, s.table[id].attempt) == RunningLive(s, s.table[id].attempt) + {id} &&
            id !in RunningLive(s, s.table[id].attempt)
    ensures RunningLive(t, !s.table[id].attempt) == RunningLive(s, !s.table[id].attempt)
    ensures forall bounty :: LiveAttempts(t, bounty) == LiveAttempts(s, bounty)
  {
  }

  lemma TakenPool(s: Service, t: Service, id: JobId)
    requires id in s.table && id in s.live && !s.table[id].running
    requires PoolExact(s, s.table[id].attempt)
    requires var attempt := s.table[id].attempt; var line := s.LineOf(attempt);
      line.pending != [] && |line.busy| < line.workers &&
      t.LineOf(attempt) == line.(pending := line.pending[1..], active := line.active + 1, busy := line.busy + {id})
    requires t == s.(table := s.table[id := s.table[id].(phase := Taken, running := true)], tls := t.tls, dns := t.dns)
    ensures PoolExact(t, s.table[id].attempt)
  {
    var attempt := s.table[id].attempt;
    TakenSets(s, t, id);
    More(RunningLive(s, attempt), id);
    More(s.LineOf(attempt).busy, id);
    hide RunningLive;
    hide LiveAttempts;
  }

  lemma TakenOtherPool(s: Service, t: Service, id: JobId)
    requires id in s.table && id in s.live && !s.table[id].running
    requires PoolExact(s, !s.table[id].attempt) && t.LineOf(!s.table[id].attempt) == s.LineOf(!s.table[id].attempt)
    requires t == s.(table := s.table[id := s.table[id].(phase := Taken, running := true)], tls := t.tls, dns := t.dns)
    ensures PoolExact(t, !s.table[id].attempt)
  {
    TakenSets(s, t, id);
    hide RunningLive;
    hide LiveAttempts;
  }

  lemma TakenUsers(s: Service, t: Service, id: JobId)
    requires UsersExact(s) && id in s.table && id in s.live && !s.table[id].running
    requires t == s.(table := s.table[id := s.table[id].(phase := Taken, running := true)], tls := t.tls, dns := t.dns)
    ensures UsersExact(t)
  {
    TakenSets(s, t, id);
    hide RunningLive;
    hide LiveAttempts;
    hide StopCount;
  }

  lemma TakenTallies(s: Service, t: Service, id: JobId)
    requires Tallies(s) && id in s.table && id in s.live && !s.table[id].running && s.live <= s.table.Keys
    requires var attempt := s.table[id].attempt; var line := s.LineOf(attempt);
      line.pending != [] && |line.busy| < line.workers && t.LineOf(!attempt) == s.LineOf(!attempt) &&
      t.LineOf(attempt) == line.(pending := line.pending[1..], active := line.active + 1, busy := line.busy + {id})
    requires t == s.(table := s.table[id := s.table[id].(phase := Taken, running := true)], tls := t.tls, dns := t.dns)
    ensures Tallies(t)
  {
    hide PoolExact;
    hide UsersExact;
    TakenPool(s, t, id);
    TakenOtherPool(s, t, id);
    TakenUsers(s, t, id);
  }

  lemma TakeCounts(s: Service, attempt: bool)
    requires Shape(s) && Counts(s) && Possible(s, Take(attempt))
    ensures Tallies(Apply(s, Take(attempt)))
  {
    hide Apply;
    hide Enabled;
    hide Tallies;
    OnTake(s, attempt);
    var id := s.LineOf(attempt).pending[0];
    assert LineShape(s, attempt) && JobShape(s, id);
    LiveKnown(s);
    Places(s, id);
    hide Shape;
    TakenTallies(s, DoTake(s, attempt), id);
  }

  /** The pool that queues a job gains a worker when it is short of one; the other pool is as before. */
  lemma SubmitPool(s: Service, t: Service, id: JobId, j: Job, spawn: bool, attempt: bool)
    requires PoolExact(s, attempt) && t == Submit(s, id, j, spawn) && !j.running && id !in s.table
    requires RunningLive(t, attempt) == RunningLive(s, attempt)
    ensures PoolExact(t, attempt)
  {
    hide RunningLive;
  }

  lemma NewcomerSets(s: Service, t: Service, id: JobId, j: Job)
    requires t.live == s.live + {id} && id !in s.live && !j.running
    requires t.table.Keys == s.table.Keys + {id} && t.table[id] == j
    requires forall other :: other in s.live && other in s.table ==> SameMarks(s.table[other], t.table[other])
    ensures forall attempt :: RunningLive(t, attempt) == RunningLive(s, attempt)
    ensures forall bounty ::
      LiveAttempts(t, bounty) == if j.attempt &&
      j.bounty == bounty then LiveAttempts(s, bounty) + {id} else LiveAttempts(s, bounty)
  {
  }

  lemma SubmitTallies(s: Service, t: Service, id: JobId, j: Job, spawn: bool)
    requires PoolExact(s, true) && PoolExact(s, false) && t == Submit(s, id, j, spawn) && !j.running &&
             id !in s.table && id !in s.live
    ensures PoolExact(t, true) && PoolExact(t, false)
    ensures forall bounty ::
      LiveAttempts(t, bounty) == if j.attempt &&
      j.bounty == bounty then LiveAttempts(s, bounty) + {id} else LiveAttempts(s, bounty)
  {
    NewcomerSets(s, t, id, j);
    hide LiveAttempts;
    hide RunningLive;
    hide PoolExact;
    SubmitPool(s, t, id, j, spawn, true);
    SubmitPool(s, t, id, j, spawn, false);
  }

  /** Queueing a resolution leaves every budget as it was. */
  lemma ResolveUsers(s: Service, t: Service, id: JobId)
    requires UsersExact(s) && s.live <= s.table.Keys && t.budgets == s.budgets && t.live == s.live + {id}
    requires id in t.table && !t.table[id].attempt && forall other :: other in s.live && other != id ==>
      other in t.table && t.table[other] == s.table[other]
    requires forall bounty :: LiveAttempts(t, bounty) == LiveAttempts(s, bounty)
    ensures UsersExact(t)
  {
    hide LiveAttempts;
    hide StopCount;
  }

  lemma SubmitResolveCounts(s: Service, id: JobId, domain: Domain, spawn: bool)
    requires Shape(s) && Counts(s) && Possible(s, SubmitResolve(id, domain, spawn))
    ensures Tallies(Apply(s, SubmitResolve(id, domain, spawn)))
  {
    hide Apply;
    hide Enabled;
    OnSubmitResolve(s, id, domain, spawn);
    FreshId(s, id);
    assert s.live <= s.table.Keys;
    hide Shape;
    hide PoolExact;
    hide UsersExact;
    hide LiveAttempts;
    var j := NewJob(false, domain, "");
    var t := Submit(s, id, j, spawn);
    SubmitTallies(s, t, id, j, spawn);
    ResolveUsers(s, t, id);
  }

  /** What Import does to the budgets: the victim goes, and the bounty gains a user. */
  lemma Imported(s: Service, bounty: Bounty, target: nat, imported: Count, victim: Option<Bounty>)
    requires CanUseBudget(s, bounty, target, victim)
    ensures var m := Import(s, bounty, target, imported, victim).budgets;
      m.Keys == (if victim.Some? then s.budgets.Keys - {victim.value} else s.budgets.Keys) + {bounty} &&
      (forall b :: b in m && b != bounty ==> b in s.budgets && m[b] == s.budgets[b]) &&
      m[bounty].users == (if bounty in s.budgets then s.budgets[bounty].users else 0) + 1 &&
      m[bounty].target == target &&
      m[bounty].stop == if bounty in s.budgets then s.budgets[bounty].stop else StopCount(target)
    ensures victim.Some? ==> victim.value in s.budgets && s.budgets[victim.value].users == 0
  {
    hide StopCount;
  }

  /** Nobody who lives loses a budget to an import: only an unused one is dropped. */
  lemma ImportKeepsUsed(s: Service, kept: set<Bounty>, id: JobId, bounty: Bounty, victim: Option<Bounty>)
    requires UsersExact(s) && id in s.live && id in s.table && s.table[id].attempt
    requires victim.Some? ==> victim.value in s.budgets && s.budgets[victim.value].users == 0
    requires kept == (if victim.Some? then s.budgets.Keys - {victim.value} else s.budgets.Keys) + {bounty}
    ensures s.table[id].bounty in kept
  {
    hide StopCount;
    assert id in LiveAttempts(s, s.table[id].bounty);
    hide LiveAttempts;
  }

  /** Nobody uses a budget that is not there. */
  lemma UnknownUnused(s: Service, bounty: Bounty)
    requires UsersExact(s) && bounty !in s.budgets
    ensures LiveAttempts(s, bounty) == {}
  {
    hide StopCount;
  }

  lemma ImportUsers(s: Service, t: Service, id: JobId, bounty: Bounty, victim: Option<Bounty>)
    requires UsersExact(s) && s.live <= s.table.Keys
    requires id !in s.live && t.live == s.live + {id} && t.table.Keys == s.table.Keys + {id}
    requires t.table[id].attempt && t.table[id].bounty == bounty
    requires forall other :: other in s.live ==> SameMarks(s.table[other], t.table[other])
    requires victim.Some? ==> victim.value in s.budgets && s.budgets[victim.value].users == 0
    requires t.budgets.Keys == (if victim.Some? then s.budgets.Keys - {victim.value} else s.budgets.Keys) + {bounty}
    requires forall b :: b in t.budgets && b != bounty ==> b in s.budgets && t.budgets[b] == s.budgets[b]
    requires t.budgets[bounty].users == (if bounty in s.budgets then s.budgets[bounty].users else 0) + 1
    requires t.budgets[bounty].stop == StopCount(t.budgets[bounty].target)
    requires forall b :: LiveAttempts(t, b) == if b == bounty then LiveAttempts(s, b) + {id} else LiveAttempts(s, b)
    ensures UsersExact(t)
  {
    hide StopCount;
    hide UsersExact;
    assert forall b :: b in t.budgets ==> b == bounty || b in s.budgets;
    forall b | b in t.budgets ensures BudgetExact(t, b) {
      if b == bounty { NewcomerExact(s, t, id, bounty); } else { ExactOf(s, b); hide LiveAttempts; }
    }
    forall other | other in t.live && other in t.table && t.table[other].attempt
      ensures t.table[other].bounty in t.budgets
    {
      if other != id {
        assert SameMarks(s.table[other], t.table[other]);
        ImportKeepsUsed(s, t.budgets.Keys, other, bounty, victim);
      }
    }
    hide LiveAttempts;
    ExactFrom(t);
  }

  ghost predicate BudgetExact(s: Service, bounty: Bounty)
    requires bounty in s.budgets
  {
    s.budgets[bounty].users == |LiveAttempts(s, bounty)| &&
    s.budgets[bounty].stop == StopCount(s.budgets[bounty].target)
  }

  lemma ExactOf(s: Service, bounty: Bounty)
    requires UsersExact(s) && bounty in s.budgets
    ensures BudgetExact(s, bounty)
  {
    hide StopCount;
  }

  lemma ExactFrom(s: Service)
    requires forall id :: id in s.live && id in s.table && s.table[id].attempt ==> s.table[id].bounty in s.budgets
    requires forall bounty :: bounty in s.budgets ==> BudgetExact(s, bounty)
    ensures UsersExact(s)
  {
    hide StopCount;
    hide LiveAttempts;
    forall bounty | bounty in s.budgets
      ensures s.budgets[bounty].users == |LiveAttempts(s, bounty)| &&
              s.budgets[bounty].stop == StopCount(s.budgets[bounty].target)
    {
      assert BudgetExact(s, bounty);
    }
  }

  /** The budget of the newcomer counts it. */
  lemma NewcomerExact(s: Service, t: Service, id: JobId, bounty: Bounty)
    requires UsersExact(s) && id !in s.live && bounty in t.budgets
    requires t.budgets[bounty].users == (if bounty in s.budgets then s.budgets[bounty].users else 0) + 1
    requires t.budgets[bounty].stop == StopCount(t.budgets[bounty].target)
    requires LiveAttempts(t, bounty) == LiveAttempts(s, bounty) + {id}
    ensures BudgetExact(t, bounty)
  {
    hide StopCount;
    assert id !in LiveAttempts(s, bounty);
    hide LiveAttempts;
    More(LiveAttempts(s, bounty), id);
    if bounty in s.budgets { ExactOf(s, bounty); } else { UnknownUnused(s, bounty); }
  }

  lemma BudgetChangedMarks(s: Service, bounty: Bounty)
    ensures var t := BudgetChanged(s, bounty);
            t == s.(table := t.table) && t.table.Keys == s.table.Keys && forall id :: id in s.table ==>
              SameMarks(s.table[id], t.table[id])
  {
  }

  /** The state in which an attempt is registered: its budget is in place and its waiters are told. */
  function Budgeted(s: Service, bounty: Bounty, target: nat, imported: Count, victim: Option<Bounty>): Service {
    var s1 := BudgetChanged(Import(s, bounty, target, imported, victim), bounty);
    s1.(door := s.door.(idle := s.door.idle || NoLiveAttempt(s)))
  }

  lemma BudgetedMarks(s: Service, bounty: Bounty, target: nat, imported: Count, victim: Option<Bounty>)
    ensures var t := Budgeted(s, bounty, target, imported, victim);
      t.table.Keys == s.table.Keys && (forall id :: id in s.table ==> SameMarks(s.table[id], t.table[id])) &&
      t == s.(table := t.table, budgets := Import(s, bounty, target, imported, victim).budgets, touched := t.touched,
              door := t.door)
  {
    BudgetChangedMarks(Import(s, bounty, target, imported, victim), bounty);
    hide BudgetChanged;
    hide NoLiveAttempt;
  }

  /** A state with other budgets and notifications has the same pools. */
  lemma SamePools(s: Service, t: Service)
    requires PoolExact(s, true) && PoolExact(s, false) && s.live <= s.table.Keys
    requires t == s.(table := t.table, budgets := t.budgets, touched := t.touched, door := t.door) &&
             t.table.Keys == s.table.Keys
    requires forall id :: id in s.table ==> SameMarks(s.table[id], t.table[id])
    ensures PoolExact(t, true) && PoolExact(t, false)
    ensures forall bounty :: LiveAttempts(t, bounty) == LiveAttempts(s, bounty)
  {
    SameLive(s, t);
    hide RunningLive;
    hide LiveAttempts;
  }

  lemma SubmitIsBudgeted(s: Service, id: JobId, domain: Domain, bounty: Bounty, target: nat, imported: Count,
                         victim: Option<Bounty>, spawn: bool)
    ensures DoSubmitAttempt(s, id, domain, bounty, target, imported, victim, spawn) ==
      Submit(Budgeted(s, bounty, target, imported, victim), id, NewJob(true, domain, bounty), spawn)
  {
    hide BudgetChanged;
    hide NoLiveAttempt;
    hide Submit;
  }

  lemma SubmittedMarks(s: Service, id: JobId, j: Job, spawn: bool)
    requires id !in s.table
    ensures var t := Submit(s, id, j, spawn);
            t.live == s.live + {id} && t.table == s.table[id := j] && t.budgets == s.budgets
  {
  }

  lemma AttemptTallies(s: Service, id: JobId, domain: Domain, bounty: Bounty, target: nat, imported: Count,
                       victim: Option<Bounty>, spawn: bool)
    requires Tallies(s) && s.live <= s.table.Keys && id !in s.table && CanUseBudget(s, bounty, target, victim)
    ensures Tallies(Submit(Budgeted(s, bounty, target, imported, victim), id, NewJob(true, domain, bounty), spawn))
  {
    hide Budgeted;
    hide Submit;
    hide PoolExact;
    hide UsersExact;
    hide LiveAttempts;
    hide CanUseBudget;
    hide Import;
    hide StopCount;
    BudgetedMarks(s, bounty, target, imported, victim);
    var s2, j := Budgeted(s, bounty, target, imported, victim), NewJob(true, domain, bounty);
    var t := Submit(s2, id, j, spawn);
    SubmittedMarks(s2, id, j, spawn);
    SamePools(s, s2);
    SubmitTallies(s2, t, id, j, spawn);
    AttemptUsers(s, t, id, bounty, target, imported, victim);
  }

  lemma SubmitAttemptCounts(s: Service, id: JobId, domain: Domain, bounty: Bounty, target: nat, imported: Count,
                            victim: Option<Bounty>, spawn: bool)
    requires Shape(s) && Counts(s) && Possible(s, SubmitAttempt(id, domain, bounty, target, imported, victim, spawn))
    ensures Tallies(Apply(s, SubmitAttempt(id, domain, bounty, target, imported, victim, spawn)))
  {
    hide Apply;
    hide Enabled;
    hide Shape;
    hide Tallies;
    hide DoSubmitAttempt;
    hide Budgeted;
    hide Submit;
    hide CanUseBudget;
    OnSubmitAttempt(s, id, domain, bounty, target, imported, victim, spawn);
    FreshId(s, id);
    LiveKnown(s);
    SubmitIsBudgeted(s, id, domain, bounty, target, imported, victim, spawn);
    AttemptTallies(s, id, domain, bounty, target, imported, victim, spawn);
  }

  lemma AttemptUsers(s: Service, t: Service, id: JobId, bounty: Bounty, target: nat, imported: Count,
                     victim: Option<Bounty>)
    requires UsersExact(s) && s.live <= s.table.Keys && CanUseBudget(s, bounty, target, victim)
    requires id !in s.live && t.live == s.live + {id} && t.table.Keys == s.table.Keys + {id}
    requires t.table[id].attempt && t.table[id].bounty == bounty
    requires forall other :: other in s.live ==> SameMarks(s.table[other], t.table[other])
    requires t.budgets == Import(s, bounty, target, imported, victim).budgets
    requires forall b :: LiveAttempts(t, b) == if b == bounty then LiveAttempts(s, b) + {id} else LiveAttempts(s, b)
    ensures UsersExact(t)
  {
    Imported(s, bounty, target, imported, victim);
    assert t.budgets[bounty].stop == StopCount(t.budgets[bounty].target);
    hide StopCount;
    hide CanUseBudget;
    hide Import;
    hide LiveAttempts;
    hide UsersExact;
    ImportUsers(s, t, id, bounty, victim);
  }

  // -----------------------------------------------------------------
  // The caches
  // -----------------------------------------------------------------

  /** A cache that stores one entry, after giving up one when it is full, stays within its bound. */
  lemma StoreBounded<K, V>(m: map<K, V>, kept: map<K, V>, k: K, v: V, bound: nat)
    requires |m| <= bound && bound >= 1
    requires kept == m || (exists victim :: victim in m && kept == m - {victim})
    requires k in m || |m| < bound || kept != m
    ensures |kept[k := v]| <= bound
  {
    if kept != m {
      var victim :| victim in m && kept == m - {victim};
      assert kept.Keys == m.Keys - {victim};
      Less(m.Keys, victim);
    }
    assert kept[k := v].Keys == kept.Keys + {k};
    More(kept.Keys, k);
  }

  /** The same addresses are known and excluded; an entry may have been used. */
  predicate SameNet(s: Service, t: Service) {
    t.net.routes == s.net.routes && t.net.families == s.net.families && t.net.dns.Keys == s.net.dns.Keys &&
    forall d :: d in s.net.dns ==> t.net.dns[d].endpoints == s.net.dns[d].endpoints
  }

  lemma SelectNet(s: Service, id: JobId, choice: Option<Endpoint>)
    requires Possible(s, Select(id, choice))
    ensures SameNet(s, Apply(s, Select(id, choice)))
  {
    hide Apply;
    hide Enabled;
    OnSelect(s, id, choice);
  }

  lemma CachedNet(s: Service, id: JobId)
    requires Possible(s, ResolveCached(id))
    ensures SameNet(s, Apply(s, ResolveCached(id)))
  {
    hide Apply;
    hide Enabled;
    OnResolveCached(s, id);
  }

  lemma NetKept(s: Service, a: Action)
    requires Possible(s, a) && !a.ResolveFresh? && !a.EndCapture?
    ensures SameNet(s, Apply(s, a))
  {
    hide Enabled;
    hide Apply;
    StaysWithin(s, a);
    match a
    case Select(id, choice) => SelectNet(s, id, choice);
    case ResolveCached(id) => CachedNet(s, id);
    case _ =>
  }

  lemma RetireShrinks(s: Service, a: Action)
    requires Possible(s, a) && (a.Take? || a.CancelQueued? || a.RetireJob? || a.Leave?)
    ensures var t := Apply(s, a); t.config == s.config && t.live <= s.live && t.budgets.Keys == s.budgets.Keys
  {
    hide Enabled;
    hide Apply;
    StaysWithin(s, a);
    match a
    case Take(attempt) => OnTake(s, attempt);
    case CancelQueued(id) => OnCancelQueued(s, id);
    case RetireJob(id) => OnRetireJob(s, id);
    case Leave(id) => OnLeave(s, id);
  }

  lemma QueueBounded(s: Service, a: Action)
    requires Bounded(s) && Possible(s, a) && !a.ResolveFresh? && !a.EndCapture? && !a.SubmitAttempt? &&
             !a.SubmitResolve?
    ensures Bounded(Apply(s, a))
  {
    hide Apply;
    hide Enabled;
    var t := Apply(s, a);
    NetKept(s, a);
    if Rebooks(a) { RetireShrinks(s, a); } else { QuietBooks(s, a); }
    hide SameBooks;
    assert t.config == s.config && t.live <= s.live && t.budgets.Keys == s.budgets.Keys;
    Fewer(t.live, s.live);
    assert |t.budgets| == |t.budgets.Keys| && |s.budgets| == |s.budgets.Keys|;
    assert |t.net.dns| == |t.net.dns.Keys| && |s.net.dns| == |s.net.dns.Keys|;
  }

  lemma FreshBounded(s: Service, id: JobId, endpoints: seq<Endpoint>, oldest: Option<Domain>)
    requires Bounded(s) && Possible(s, ResolveFresh(id, endpoints, oldest))
    ensures Bounded(Apply(s, ResolveFresh(id, endpoints, oldest)))
  {
    hide Apply;
    hide Enabled;
    OnResolveFresh(s, id, endpoints, oldest);
    var d := s.table[id].domain;
    var m := StoreDns(s, d, endpoints);
    assert m.Keys == s.net.dns.Keys + {d} && |m| == |m.Keys|;
    More(s.net.dns.Keys, d);
    if oldest.Some? {
      assert (m - {oldest.value}).Keys == m.Keys - {oldest.value};
      Less(m.Keys, oldest.value);
    }
  }

  lemma ExcludeBounded(s: Service, e: Endpoint, family: bool, victim: Option<Endpoint>, familyVictim: Option<int>)
    requires Bounded(s) && VictimsChosen(s, e, family, victim, familyVictim)
    ensures Bounded(Exclude(s, e, family, victim, familyVictim))
  {
    var until := s.clock.reach + RECHECK_SECONDS;
    if family {
      var kept := if familyVictim.Some? then s.net.families - {familyVictim.value} else s.net.families;
      if familyVictim.Some? { Removed(s.net.families, familyVictim.value); }
      StoreBounded(s.net.families, kept, e.family, until, MAX_UNREACHABLE_FAMILIES);
    } else {
      var kept := if victim.Some? then s.net.routes - {victim.value} else s.net.routes;
      if victim.Some? { Removed(s.net.routes, victim.value); }
      StoreBounded(s.net.routes, kept, e, until, MAX_UNREACHABLE_ENDPOINTS);
    }
  }

  lemma Removed<K, V>(m: map<K, V>, k: K)
    requires k in m
    ensures m - {k} != m
  {
    assert k !in m - {k};
  }

  lemma EndCaptureBounded(s: Service, id: JobId, captured: bool, cancel: bool, unreachable: Option<bool>,
                          victim: Option<Endpoint>, familyVictim: Option<int>)
    requires Bounded(s) && Possible(s, EndCapture(id, captured, cancel, unreachable, victim, familyVictim))
    ensures Bounded(Apply(s, EndCapture(id, captured, cancel, unreachable, victim, familyVictim)))
  {
    hide Apply;
    hide Enabled;
    OnEndCapture(s, id, captured, cancel, unreachable, victim, familyVictim);
    if unreachable.Some? { ExcludeBounded(s, s.table[id].endpoint.value, unreachable.value, victim, familyVictim); }
    hide VictimsChosen;
    hide Exclude;
  }

  lemma SubmitResolveBounded(s: Service, id: JobId, domain: Domain, spawn: bool)
    requires Bounded(s) && Possible(s, SubmitResolve(id, domain, spawn))
    ensures Bounded(Apply(s, SubmitResolve(id, domain, spawn)))
  {
    hide Apply;
    hide Enabled;
    OnSubmitResolve(s, id, domain, spawn);
    More(s.live, id);
  }

  lemma SubmitAttemptBounded(s: Service, id: JobId, domain: Domain, bounty: Bounty, target: nat, imported: Count,
                             victim: Option<Bounty>, spawn: bool)
    requires Bounded(s) && Possible(s, SubmitAttempt(id, domain, bounty, target, imported, victim, spawn))
    ensures Bounded(Apply(s, SubmitAttempt(id, domain, bounty, target, imported, victim, spawn)))
  {
    hide Apply;
    hide Enabled;
    OnSubmitAttempt(s, id, domain, bounty, target, imported, victim, spawn);
    More(s.live, id);
    var m := Import(s, bounty, target, imported, victim).budgets;
    var kept := if victim.Some? then s.budgets - {victim.value} else s.budgets;
    if victim.Some? { Removed(s.budgets, victim.value); }
    hide StopCount;
    assert m == kept[bounty := m[bounty]];
    StoreBounded(s.budgets, kept, bounty, m[bounty], MAX_BUDGETS);
    hide Import;
  }

  // -----------------------------------------------------------------
  // Theorem
  // -----------------------------------------------------------------

  lemma InitCounts(c: Config, start: real)
    requires GoodConfig(c)
    ensures Counts(Init(c, start))
  {
    var s := Init(c, start);
    assert RunningLive(s, true) == {} && RunningLive(s, false) == {};
  }

  lemma TalliesKept(s: Service, a: Action)
    requires Shape(s) && Records(s) && Counts(s) && Possible(s, a)
    ensures Tallies(Apply(s, a))
  {
    hide Shape;
    hide Records;
    hide Counts;
    hide Tallies;
    hide Apply;
    hide Enabled;
    match a
    case SubmitAttempt(id, domain, bounty, target, imported, victim, spawn) =>
      SubmitAttemptCounts(s, id, domain, bounty, target, imported, victim, spawn);
    case SubmitResolve(id, domain, spawn) => SubmitResolveCounts(s, id, domain, spawn);
    case Take(attempt) => TakeCounts(s, attempt);
    case CancelQueued(id) => CancelQueuedCounts(s, id);
    case RetireJob(id) => RetireJobCounts(s, id);
    case Leave(id) => LeaveCounts(s, id);
    case _ => QuietCounts(s, a);
  }

  lemma BoundsKept(s: Service, a: Action)
    requires Bounded(s) && Possible(s, a)
    ensures Bounded(Apply(s, a))
  {
    hide Bounded;
    hide Apply;
    hide Enabled;
    match a
    case SubmitAttempt(id, domain, bounty, target, imported, victim, spawn) =>
      SubmitAttemptBounded(s, id, domain, bounty, target, imported, victim, spawn);
    case SubmitResolve(id, domain, spawn) => SubmitResolveBounded(s, id, domain, spawn);
    case ResolveFresh(id, endpoints, oldest) => FreshBounded(s, id, endpoints, oldest);
    case EndCapture(id, captured, cancel, unreachable, victim, familyVictim) =>
      EndCaptureBounded(s, id, captured, cancel, unreachable, victim, familyVictim);
    case _ => QueueBounded(s, a);
  }

  /** Theorem: every counter stays exact and every cache bounded, whatever happens next. */
  lemma CountsKept(s: Service, a: Action)
    requires Shape(s) && Records(s) && Counts(s) && Possible(s, a)
    ensures Counts(Apply(s, a))
  {
    TalliesKept(s, a);
    BoundsKept(s, a);
    hide Apply;
    hide Enabled;
    hide Tallies;
    hide Bounded;
  }

  lemma ActiveWithinLimit(s: Service, attempt: bool)
    requires Shape(s) && Counts(s)
    ensures RunningLive(s, attempt) <= s.LineOf(attempt).busy
    ensures 0 <= s.LineOf(attempt).active <= |s.LineOf(attempt).busy| <= MostWorkers(s, attempt)
  {
    forall id | id in RunningLive(s, attempt) ensures id in s.LineOf(attempt).busy {
      Places(s, id);
    }
    hide Shape;
    Fewer(RunningLive(s, attempt), s.LineOf(attempt).busy);
  }
}
