/**
  The claims service as a state: the fields of ClaimsService::Impl, one record
  per job that was ever admitted, and how far the thread that serves it has got.
  A phase names the point between two critical sections at which a thread stands.
*/
module ServiceState {
  import opened Outcomes
  import opened BudgetCutoff

  const MAX_BUDGETS: nat := 1024
  const MAX_DNS: nat := 4096
  const MAX_ENDPOINTS: nat := 32
  const MAX_UNREACHABLE_ENDPOINTS: nat := 4096
  const MAX_UNREACHABLE_FAMILIES: nat := 2
  const RECHECK_SECONDS: real := 60.0
  const DNS_WORKERS: nat := 2

  type JobId = nat
  type Bounty = string
  type Domain = string

  datatype Endpoint = Endpoint(ip: string, family: int, port: nat)

  /** How a job sleeps in the connection gate, and whether a notification is under way. */
  datatype Sleep = Untimed(notified: bool) | Timed(notified: bool, deadline: real)

  datatype Phase =
    | Queued                      // in a pending queue, no worker
    | Taken                       // popped by a worker
    | Selected                    // endpoint chosen
    | Capturing                   // admitted, before the connect callback
    | Waiting(sleep: Sleep)       // asleep inside Connecting
    | Acking                      // head of the gate, writing the started frame
    | Acked                       // started frame written
    | AckFailed                   // writing it failed
    | Connected                   // permit granted
    | Ended(permit: bool, cancel: bool)  // capture returned or threw, not yet counted
    | Recorded(cancel: bool)      // counted, capture frame not yet written
    | Judging(cancel: bool)       // verification and exception handlers
    | Reporting(count: Option<Count>)    // terminal frame built, job still registered
    | Retired(count: Option<Count>)      // unregistered, terminal frame not yet written
    | Done                        // terminal frame written
    | Crashed                     // an exception reached the worker
    | Doomed                      // Fatal has run for it
    | Finished                    // no thread serves this job any more

  datatype Job = Job(
    attempt: bool, domain: Domain, bounty: Bounty,
    phase: Phase, running: bool, started: bool, captured: bool,
    cancelRequested: bool, controlCancelled: bool,
    endpoint: Option<Endpoint>, successes: Option<Count>,
    ticket: nat)
  {
    predicate Cancelled() {
      cancelRequested || controlCancelled
    }

    /** Between insertion into connection_pending and its erasure. */
    predicate InGate() {
      phase.Waiting? || phase.Acking? || phase.Acked? || phase.AckFailed?
    }

    /** Asleep with no notification on its way. */
    predicate SleepsUnnotified() {
      phase.Waiting? && !phase.sleep.notified
    }

    /** Holds a permit whose outcome has not reached the budget. */
    predicate HoldsPermit() {
      phase.Connected? || (phase.Ended? && phase.permit)
    }

    function Notified(): Job {
      match phase
      case Waiting(Untimed(_)) => this.(phase := Waiting(Untimed(true)))
      case Waiting(Timed(_, deadline)) => this.(phase := Waiting(Timed(true, deadline)))
      case _ => this
    }
  }

  /** largestImport records the largest count a controller supplied while the budget is resident. */
  datatype Budget = Budget(target: nat, stop: Count, successes: Count, users: nat, touched: nat, largestImport: Count)

  datatype DnsEntry = DnsEntry(endpoints: seq<Endpoint>, expires: real, touched: nat)

  datatype Frame =
    | Started(id: JobId)
    | Capture(id: JobId, count: Count)
    | Terminal(id: JobId, counted: Option<Count>)
    | Admission(revision: nat, allowed: bool)

  /** One granted permit: who, at what time, and with which place in the arrival order. */
  datatype Permit = Permit(id: JobId, ticket: nat, at: real)

  /** An accepted admission command whose acknowledgement is not finished. */
  datatype AdmissionStage = Unacknowledged(allowed: bool) | Acknowledged

  datatype Config = Config(rate: nat, concurrency: nat, pendingLimit: nat)

  /** One worker pool: its queue, its threads, and the jobs those threads hold. */
  datatype Line = Line(pending: seq<JobId>, workers: nat, active: int, busy: set<JobId>)

  /** What the service knows about names and addresses. */
  datatype Net = Net(dns: map<Domain, DnsEntry>, routes: map<Endpoint, real>, families: map<int, real>)

  /**
    Pacing and admission; lastPause and openedBy name the newest accepted pause and the resume that opened the gate.
  */
  datatype Door = Door(next: real, idle: bool, allowed: bool, revision: nat,
                       admissions: map<nat, AdmissionStage>, lastPause: nat, openedBy: nat)

  /** Shutdown; closing holds the jobs that Close has still to cancel. */
  datatype Ending = Ending(closed: bool, failed: bool, shutdown: bool, closing: set<JobId>, spawnFailed: bool)

  datatype Clock = Clock(now: real, reach: real)

  /** What the controller and an observer of the gate have seen. */
  datatype Log = Log(frames: seq<Frame>, permits: seq<Permit>, arrivals: nat)

  datatype Service = Service(
    config: Config,
    table: map<JobId, Job>,     // every job admitted so far
    live: set<JobId>,           // the keys of jobs
    gate: seq<JobId>,           // connection_pending
    tls: Line, dns: Line,
    budgets: map<Bounty, Budget>,
    net: Net, door: Door, end: Ending, clock: Clock,
    lastId: nat, touched: nat, log: Log)
  {
    function LineOf(attempt: bool): Line {
      if attempt then tls else dns
    }

    function WithLine(attempt: bool, line: Line): Service {
      if attempt then this.(tls := line) else this.(dns := line)
    }
  }

  // -----------------------------------------------------------------
  // Sizes and sequences
  // -----------------------------------------------------------------

  function Interval(rate: nat): (i: real)
    requires rate >= 1
    ensures i > 0.0
  {
    1.0 / rate as real
  }

  function MaxReal(a: real, b: real): real {
    if a >= b then a else b
  }

  function Max(a: int, b: int): int {
    if a >= b then a else b
  }

  /** AdvanceConnectionDeadline: the next start is due one interval later, at most one second behind. */
  function Advance(previous: real, now: real, rate: nat, idle: bool): real
    requires rate >= 1
  {
    var base := if idle then MaxReal(previous, now) else previous;
    MaxReal(base + Interval(rate), now - 1.0)
  }

  /** A queue without its element at index i. */
  function Without<T>(q: seq<T>, i: nat): (r: seq<T>)
    requires i < |q|
    ensures |r| == |q| - 1
  {
    q[..i] + q[i + 1..]
  }

  /** A queue without the first occurrence of x. */
  function Erase<T(==)>(q: seq<T>, x: T): seq<T> {
    if q == [] then []
    else if q[0] == x then q[1..]
    else [q[0]] + Erase(q[1..], x)
  }

  // -----------------------------------------------------------------
  // Questions about a state
  // -----------------------------------------------------------------

  predicate EndpointAvailable(s: Service, e: Endpoint) {
    (e.family in s.net.families ==> s.net.families[e.family] <= s.clock.reach) &&
    (e in s.net.routes ==> s.net.routes[e] <= s.clock.reach)
  }

  predicate BudgetBelowStop(s: Service, bounty: Bounty) {
    bounty in s.budgets && s.budgets[bounty].successes < s.budgets[bounty].stop
  }

  /** Why a start is refused. */
  datatype Refusal = Shutdown | Excluded | Exhausted

  /** BeforeStartLocked: the first reason that applies, if any. */
  function Refused(s: Service, j: Job): Option<Refusal> {
    if s.end.closed || s.end.failed || j.Cancelled() then Some(Shutdown)
    else if j.endpoint.Some? && !EndpointAvailable(s, j.endpoint.value) then Some(Excluded)
    else if !BudgetBelowStop(s, j.bounty) then Some(Exhausted)
    else None
  }

  /** The members of live for which a predicate holds, for counting. */
  ghost function RunningLive(s: Service, attempt: bool): set<JobId> {
    set id | id in s.live && id in s.table && s.table[id].running && s.table[id].attempt == attempt
  }

  ghost function LiveAttempts(s: Service, bounty: Bounty): set<JobId> {
    set id | id in s.live && id in s.table && s.table[id].attempt && s.table[id].bounty == bounty
  }

  ghost function Unrecorded(s: Service, bounty: Bounty): set<JobId> {
    set id | id in s.table && s.table[id].HoldsPermit() && s.table[id].bounty == bounty
  }

  // -----------------------------------------------------------------
  // Updates shared by several critical sections
  // -----------------------------------------------------------------

  function Put(s: Service, id: JobId, j: Job): Service {
    s.(table := s.table[id := j])
  }

  function SetPhase(s: Service, id: JobId, p: Phase): Service
    requires id in s.table
  {
    Put(s, id, s.table[id].(phase := p))
  }

  /** notify_one on the condition variable of each of these jobs. */
  function Notify(t: map<JobId, Job>, ids: set<JobId>): map<JobId, Job> {
    map id | id in t :: if id in ids then t[id].Notified() else t[id]
  }

  lemma NotifyNobody(t: map<JobId, Job>)
    ensures Notify(t, {}) == t
  {
  }

  function NotifyGate(s: Service): Service {
    s.(table := Notify(s.table, set id | id in s.gate))
  }

  /** RequestCancelLocked for every registered job. */
  function CancelAll(s: Service): Service {
    s.(table := map id | id in s.table ::
                  if id in s.live then s.table[id].(cancelRequested := true).Notified() else s.table[id])
  }

  /** The release lambda of Connecting: erase, and hand the gate to the next job. */
  function Release(s: Service, i: nat): (r: Service)
    requires i < |s.gate|
    ensures r == s.(gate := Without(s.gate, i), table := r.table) && r.table.Keys == s.table.Keys
  {
    var rest := Without(s.gate, i);
    var t := if i == 0 && rest != [] then Notify(s.table, {rest[0]}) else s.table;
    s.(gate := rest, table := t)
  }

  /** The line that loses a job: a worker's slot, or a place in the queue. */
  function Vacate(line: Line, id: JobId, running: bool): Line {
    if running then line.(active := line.active - 1) else line.(pending := Erase(line.pending, id))
  }

  /** Gives back a user of a budget. */
  function Unuse(budgets: map<Bounty, Budget>, j: Job): map<Bounty, Budget> {
    if j.attempt && j.bounty in budgets then
      var b := budgets[j.bounty];
      budgets[j.bounty := b.(users := if b.users > 0 then b.users - 1 else 0)]
    else budgets
  }

  /** RetireLocked: unregister a job once and give back its counters. */
  function Retire(s: Service, id: JobId): (r: Service)
    requires id in s.table
    ensures r == s.(live := s.live - {id}, tls := r.tls, dns := r.dns, budgets := r.budgets)
  {
    if id !in s.live then
      assert s.live - {id} == s.live;
      s
    else
      var j := s.table[id];
      s.(live := s.live - {id}, budgets := Unuse(s.budgets, j))
       .WithLine(j.attempt, Vacate(s.LineOf(j.attempt), id, j.running))
  }

  /** The key with the smallest expiry, which a full exclusion table drops first. */
  predicate Oldest<K>(m: map<K, real>, k: K) {
    k in m && forall other :: other in m ==> m[k] <= m[other]
  }

  /** ExcludeEndpointLocked; victim is the entry a full table gives up. */
  function Exclude(s: Service, e: Endpoint, family: bool, victim: Option<Endpoint>,
                   familyVictim: Option<int>): Service {
    var until := s.clock.reach + RECHECK_SECONDS;
    var hit := set id |
                 id in s.gate && id in s.table && s.table[id].endpoint.Some? &&
                 (if family then s.table[id].endpoint.value.family == e.family
                  else s.table[id].endpoint.value == e);
    var net :=
      if family then
        var kept := if familyVictim.Some? then s.net.families - {familyVictim.value} else s.net.families;
        s.net.(families := kept[e.family := until])
      else
        var kept := if victim.Some? then s.net.routes - {victim.value} else s.net.routes;
        s.net.(routes := kept[e := until]);
    s.(net := net, table := Notify(s.table, hit))
  }

  /** The victims are the oldest entries, and only when the table is full. */
  ghost predicate VictimsChosen(s: Service, e: Endpoint, family: bool, victim: Option<Endpoint>,
                                familyVictim: Option<int>) {
    if family then
      victim.None? &&
      if e.family !in s.net.families && |s.net.families| >= MAX_UNREACHABLE_FAMILIES
      then familyVictim.Some? && Oldest(s.net.families, familyVictim.value)
      else familyVictim.None?
    else
      familyVictim.None? &&
      if e !in s.net.routes && |s.net.routes| >= MAX_UNREACHABLE_ENDPOINTS
      then victim.Some? && Oldest(s.net.routes, victim.value)
      else victim.None?
  }

  /** BudgetChangedLocked: wake the waiters of an exhausted bounty. */
  function BudgetChanged(s: Service, bounty: Bounty): Service {
    if BudgetBelowStop(s, bounty) then s
    else s.(table := Notify(s.table, set id | id in s.gate && id in s.table && s.table[id].bounty == bounty))
  }
}
