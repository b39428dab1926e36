/**
  The start limiter of the mobile client: waiters in an intrusive doubly linked
  list, handed a permit one at a time from its head. Each critical section of the
  limiter's mutex is one method; an asleep waiter is one that is not due a turn.
*/
module StartQueue {
  import BudgetCutoff
  import opened Outcomes
  import opened StartPacing

  const MAX_COUNT: nat := 0xffff_ffff_ffff_ffff

  /** An unsigned 64-bit counter. */
  type Count = n: nat | n <= MAX_COUNT

  datatype ClaimBudget = ClaimBudget(stop: Count, successes: Count)

  datatype Endpoint = Endpoint(address: nat, family: nat)

  /** What is excluded: one address, or a whole family. */
  datatype Exclusion = Route(address: nat) | Family(family: nat)

  predicate Concerns(x: Exclusion, e: Option<Endpoint>) {
    e.Some? &&
    match x
    case Route(address) => e.value.address == address
    case Family(family) => e.value.family == family
  }

  class StartWaiter {
    var previous: StartWaiter?
    var next: StartWaiter?
    /** Notified since it last slept, or not asleep yet. */
    var due: bool
    /** When its timed wait ends. */
    var until: int
    var cancelled: bool
    const deadline: int
    const budget: Option<string>
    const endpoint: Option<Endpoint>
    /** The flag is set, and the notification that follows it is still to come. */
    ghost var cancelling: bool

    constructor (deadline: int, budget: Option<string>, endpoint: Option<Endpoint>)
      ensures this.deadline == deadline && this.budget == budget && this.endpoint == endpoint
      ensures due && !cancelled && !cancelling && until == deadline
    {
      previous, next, due, cancelled, until := null, null, true, false, deadline;
      this.deadline, this.budget, this.endpoint := deadline, budget, endpoint;
      cancelling := false;
    }

    /** Live demand: neither cancelled nor too late. */
    predicate Live(now: int)
      reads this`cancelled
    {
      !cancelled && deadline > now
    }
  }

  /**
    What the world shows a waiter that takes its turn: clock readings, a cancellation or an exclusion that comes
    meanwhile, a failing start.
  */
  datatype View = View(checked: int, now: int, again: int, cancelled: bool, excludedLate: bool,
                       failure: Option<string>, recorded: int)

  /** How a turn ends. */
  datatype Outcome = Waits(until: int) | Fails(reason: string) | Starts

  function Min(a: int, b: int): int {
    if a <= b then a else b
  }

  /** A ready check that passes once passes at every later time. */
  lemma ReadyLasts(p: Pace, now: int, later: int)
    requires p.initialized && now <= later && ReadyAt(p, now) <= now
    ensures ReadyAt(p, later) <= later
  {
    RecentShrinks(p.starts, now, later);
  }

  /** The time a ready check names is a time at which it passes. */
  lemma ReadyWhenSaid(p: Pace, now: int)
    requires Sorted(p.starts) && p.rate > 0 && (p.initialized || p.starts == []) && now < ReadyAt(p, now)
    ensures p.initialized && ReadyAt(p, ReadyAt(p, now)) <= ReadyAt(p, now)
  {
    RecentExact(p.starts, now);
    RecentExact(p.starts, ReadyAt(p, now));
    RecentShrinks(p.starts, now, ReadyAt(p, now));
  }

  ghost function Leader(queue: seq<StartWaiter>, i: nat): StartWaiter?
    requires i < |queue|
  {
    if i == 0 then null else queue[i - 1]
  }

  ghost function Follower(queue: seq<StartWaiter>, i: nat): StartWaiter?
    requires i < |queue|
  {
    if i == |queue| - 1 then null else queue[i + 1]
  }

  predicate Distinct<T(==)>(queue: seq<T>) {
    forall i, k :: 0 <= i < k < |queue| ==> queue[i] != queue[k]
  }

  lemma OnlyAt<T>(queue: seq<T>, i: nat)
    requires Distinct(queue) && i < |queue|
    ensures forall k :: 0 <= k < |queue| && k != i ==> queue[k] != queue[i]
  {
  }

  lemma DistinctWithout<T>(queue: seq<T>, i: nat)
    requires Distinct(queue) && i < |queue|
    ensures Distinct(queue[..i] + queue[i + 1..])
  {
  }

  /** Strictly increasing numbers below a bound. */
  predicate Increasing(s: seq<nat>, bound: nat) {
    (forall i, k :: 0 <= i < k < |s| ==> s[i] < s[k]) && forall i :: 0 <= i < |s| ==> s[i] < bound
  }

  lemma IncreasingWithout(a: seq<nat>, b: seq<nat>, i: nat, bound: nat)
    requires Increasing(a + b, bound) && i < |b|
    ensures Increasing(a + (b[..i] + b[i + 1..]), bound)
  {
    var c := a + b;
    assert a + (b[..i] + b[i + 1..]) == c[..|a| + i] + c[|a| + i + 1..];
  }

  lemma IncreasingMore(a: seq<nat>, b: seq<nat>, bound: nat)
    requires Increasing(a + b, bound)
    ensures Increasing(a + (b + [bound]), bound + 1)
  {
    assert a + (b + [bound]) == (a + b) + [bound];
  }

  /** The pointers of the list say what a sequence of waiters says. */
  ghost predicate Links(queue: seq<StartWaiter>, first: StartWaiter?, last: StartWaiter?)
    reads queue`previous, queue`next
  {
    Distinct(queue) &&
    first == (if queue == [] then null else queue[0]) &&
    last == (if queue == [] then null else queue[|queue| - 1]) &&
    forall i :: 0 <= i < |queue| ==> LinkedAt(queue, i)
  }

  lemma NothingLinked()
    ensures Links([], null, null) && Increasing([], 0)
  {
  }

  /** A waiter points to its neighbours. */
  ghost predicate LinkedAt(queue: seq<StartWaiter>, i: nat)
    requires i < |queue|
    reads queue`previous, queue`next
  {
    queue[i].previous == Leader(queue, i) && queue[i].next == Follower(queue, i)
  }

  /** A waiter points to its neighbours, passing over the one at a place. */
  ghost predicate LinkedPast(queue: seq<StartWaiter>, gone: nat, i: nat)
    requires i < |queue| && gone < |queue|
    reads queue`previous, queue`next
  {
    queue[i].previous == Leader(queue, if i == gone + 1 then gone else i) &&
    queue[i].next == Follower(queue, if i + 1 == gone then gone else i)
  }

  /** The list without its i-th waiter, once the neighbours of that waiter point past it. */
  lemma LinksWithout(queue: seq<StartWaiter>, i: nat, first: StartWaiter?, last: StartWaiter?)
    requires Distinct(queue) && i < |queue|
    requires forall k :: 0 <= k < |queue| && k != i ==> LinkedPast(queue, i, k)
    requires first == if i == 0 then Follower(queue, 0) else queue[0]
    requires last == if i == |queue| - 1 then Leader(queue, i) else queue[|queue| - 1]
    ensures Links(queue[..i] + queue[i + 1..], first, last)
  {
    hide Distinct;
    var rest := queue[..i] + queue[i + 1..];
    DistinctWithout(queue, i);
    forall k | 0 <= k < |rest|
      ensures LinkedAt(rest, k)
    {
      assert LinkedPast(queue, i, if k < i then k else k + 1);
    }
  }

  class StartLimiter {
    var first: StartWaiter?
    var last: StartWaiter?
    var destroyed: bool
    var rebasePending: bool
    var allowed: bool
    var budgets: map<string, ClaimBudget>
    /** Until when addresses and families are excluded. */
    var excluded: map<Exclusion, int>
    const pacer: StartPacer
    /** The waiters in arrival order. */
    ghost var queue: seq<StartWaiter>
    /** Their arrival numbers. */
    ghost var tickets: seq<nat>
    ghost var arrivals: nat
    /** The arrival numbers of the starts, in the order of the starts. */
    ghost var started: seq<nat>
    ghost var clock: int
    /** Exclusions that are set, and whose notification is still to come. */
    ghost var announcing: set<Exclusion>

    predicate InForce(x: Exclusion, now: int)
      reads this`excluded
    {
      x in excluded && excluded[x] > now
    }

    /** The address of a waiter is excluded, or its family. */
    predicate Barred(e: Option<Endpoint>, now: int)
      reads this`excluded
    {
      e.Some? && (InForce(Route(e.value.address), now) || InForce(Family(e.value.family), now))
    }

    /** An exclusion that bars an address is about to be announced. */
    ghost predicate BarsAnnounced(e: Option<Endpoint>)
      reads this`excluded, this`announcing, this`clock
    {
      forall x :: Concerns(x, e) && InForce(x, clock) ==> x in announcing
    }

    predicate Exhausted(budget: Option<string>)
      reads this`budgets
    {
      budget.Some? && budget.value in budgets && budgets[budget.value].successes >= budgets[budget.value].stop
    }

    /** Somebody waits who can still start. */
    ghost predicate Demand(now: int)
      reads this`queue, queue`cancelled
    {
      exists w :: w in queue && !w.cancelled && w.deadline > now
    }

    ghost predicate Linked()
      reads this`queue, this`first, this`last, queue`previous, queue`next
    {
      Links(queue, first, last)
    }

    /** Arrival numbers grow along the starts and on along the queue. */
    ghost predicate InOrder()
      reads this`queue, this`tickets, this`arrivals, this`started
    {
      |tickets| == |queue| && Increasing(started + tickets, arrivals)
    }

    /** The timer of a sleeping head: it ends when the head may start, or at its deadline. */
    ghost predicate TimerServes(head: StartWaiter)
      reads this`rebasePending, this`clock, head`cancelled, head`until, pacer
    {
      head.Live(clock) ==>
        !rebasePending &&
        (head.until < head.deadline ==> pacer.initialized && ReadyAt(pacer.State(), head.until) <= head.until)
    }

    /** No waiter sleeps through what it waits for. */
    ghost predicate Asleep(waiter: StartWaiter)
      reads this`destroyed, this`budgets, this`first, this`allowed, this`rebasePending, this`clock, pacer
      reads this`excluded, this`announcing, waiter`cancelled, waiter`cancelling, waiter`until
    {
      !destroyed && (waiter.cancelled ==> waiter.cancelling) && !Exhausted(waiter.budget) &&
      BarsAnnounced(waiter.endpoint) && waiter.until <= waiter.deadline &&
      (waiter == first && allowed ==> TimerServes(waiter))
    }

    ghost predicate Attended()
      reads this`queue, this`destroyed, this`budgets, this`first, this`allowed, this`rebasePending, this`clock, pacer
      reads this`excluded, this`announcing, queue`due, queue`cancelled, queue`cancelling, queue`until
    {
      forall w :: w in queue && !w.due ==> Asleep(w)
    }

    ghost predicate Valid()
      reads this, queue, pacer, pacer.ring
    {
      Linked() && InOrder() && Attended() && pacer.Valid() && pacer.clock <= clock
    }

    constructor (rate: int)
      requires 1 <= rate <= SLOTS
      ensures Valid() && queue == [] && allowed && !destroyed
    {
      hide ReadyAt;
      hide Keeps;
      hide Links;
      hide Increasing;
      first, last, destroyed, rebasePending, allowed, budgets := null, null, false, false, true, map[];
      excluded, announcing := map[], {};
      pacer := new StartPacer(rate);
      queue, tickets, arrivals, started, clock := [], [], 0, [], 0;
      NothingLinked();
      new;
      assert started + tickets == [];
    }

    /** Whether any linked waiter is live demand. */
    method AnyLive(now: int) returns (live: bool)
      requires Linked()
      ensures live <==> Demand(now)
    {
      var pending := first;
      ghost var k := 0;
      while pending != null
        invariant 0 <= k <= |queue| && pending == (if k < |queue| then queue[k] else null)
        invariant forall i :: 0 <= i < k ==> !queue[i].Live(now)
        decreases |queue| - k
      {
        assert LinkedAt(queue, k) && queue[k] in queue;
        if !pending.cancelled && pending.deadline > now {
          assert queue[k].Live(now);
          return true;
        }
        pending := pending.next;
        k := k + 1;
      }
      return false;
    }

    /** Link a waiter behind the last one. */
    method Append(waiter: StartWaiter)
      requires Linked() && waiter !in queue
      modifies this`first, this`last, this`queue, waiter`previous, waiter`next, queue`next
      ensures Linked() && queue == old(queue) + [waiter]
      ensures first == if old(queue) == [] then waiter else old(first)
    {
      ghost var was := queue;
      assert was != [] ==> LinkedAt(was, |was| - 1);
      waiter.previous := last;
      waiter.next := null;
      if last != null { last.next := waiter; } else { first := waiter; }
      last := waiter;
      queue := queue + [waiter];
      forall i | 0 <= i < |queue| ensures LinkedAt(queue, i) {
        if i < |was| { assert old(LinkedAt(was, i)); }
      }
    }

    /** Unlink a waiter from anywhere. */
    method Unlink(waiter: StartWaiter, ghost i: nat)
      requires Linked() && i < |queue| && queue[i] == waiter
      modifies this`first, this`last, this`queue, queue`previous, queue`next
      ensures Linked() && queue == old(queue)[..i] + old(queue)[i + 1..]
    {
      hide Distinct;
      ghost var was := queue;
      assert LinkedAt(was, i);
      OnlyAt(was, i);
      if i > 0 { OnlyAt(was, i - 1); }
      if i + 1 < |was| { OnlyAt(was, i + 1); }
      if waiter.previous != null { waiter.previous.next := waiter.next; } else { first := waiter.next; }
      if waiter.next != null { waiter.next.previous := waiter.previous; } else { last := waiter.previous; }
      forall k | 0 <= k < |was| && k != i ensures LinkedPast(was, i, k) { assert old(LinkedAt(was, k)); }
      LinksWithout(was, i, first, last);
      queue := queue[..i] + queue[i + 1..];
    }

    /** Link a waiter and give it the next arrival number. */
    method Enlist(waiter: StartWaiter)
      requires Linked() && InOrder() && waiter !in queue
      modifies this`first, this`last, this`queue, this`tickets, this`arrivals, waiter`previous, waiter`next, queue`next
      ensures Linked() && InOrder() && queue == old(queue) + [waiter]
      ensures first == if old(queue) == [] then waiter else old(first)
      ensures arrivals == old(arrivals) + 1 && tickets == old(tickets) + [old(arrivals)]
    {
      hide Linked;
      hide Increasing;
      Append(waiter);
      IncreasingMore(started, tickets, arrivals);
      tickets := tickets + [arrivals];
      arrivals := arrivals + 1;
    }

    /** A waiter joins at the end. After a gap without demand the schedule is to be moved up to the present. */
    method Push(waiter: StartWaiter, now: int)
      requires Valid() && waiter !in queue && waiter.due && clock <= now
      modifies this`first, this`last, this`rebasePending, this`queue, this`tickets, this`arrivals, this`clock
      modifies waiter`previous, waiter`next, queue`next
      ensures Valid() && queue == old(queue) + [waiter] && clock == now
      ensures rebasePending <==> old(rebasePending) || !old(Demand(now))
      ensures arrivals == old(arrivals) + 1 && tickets == old(tickets) + [old(arrivals)]
    {
      hide Linked;
      hide InOrder;
      hide Exhausted;
      hide ReadyAt;
      hide pacer.Valid;
      hide pacer.State;
      var live := AnyLive(now);
      if !live { rebasePending := true; }
      Enlist(waiter);
      clock := now;
      forall w | w in queue && !w.due ensures Asleep(w) {
        assert w in old(queue) && old(Asleep(w));
      }
    }

    /** Ask for a permit: nobody is queued who has given up already. */
    method Join(waiter: StartWaiter, now: int) returns (refused: Option<string>)
      requires Valid() && waiter !in queue && waiter.due && clock <= now
      modifies this`first, this`last, this`rebasePending, this`queue, this`tickets, this`arrivals, this`clock
      modifies waiter`previous, waiter`next, queue`next
      ensures Valid() && (refused == None <==> waiter.Live(now) && !destroyed)
      ensures refused == None ==> queue == old(queue) + [waiter]
      ensures refused != None ==> queue == old(queue) && rebasePending == old(rebasePending)
      ensures refused != None ==>
        refused == Some(if waiter.cancelled || now < waiter.deadline then "CLAIM_CANCELLED" else "CLAIM_TIMEOUT")
    {
      if waiter.cancelled { return Some("CLAIM_CANCELLED"); }
      if now >= waiter.deadline { return Some("CLAIM_TIMEOUT"); }
      if destroyed { return Some("CLAIM_CANCELLED"); }
      hide Valid;
      Push(waiter, now);
      return None;
    }

    /** A waiter leaves from anywhere; the next head is told. */
    method Remove(waiter: StartWaiter, ghost i: nat)
      requires Valid() && i < |queue| && queue[i] == waiter
      modifies this`first, this`last, this`queue, this`tickets, queue`previous, queue`next, queue`due
      ensures Valid() && queue == old(queue)[..i] + old(queue)[i + 1..] &&
              tickets == old(tickets)[..i] + old(tickets)[i + 1..]
      ensures i == 0 && queue != [] ==> queue[0].due
      ensures forall w :: w in queue && (i > 0 || w != queue[0]) ==> w.due == old(w.due)
    {
      hide Increasing;
      hide pacer.Valid;
      var wasFirst := first == waiter;
      OnlyAt(queue, i);
      Unlink(waiter, i);
      IncreasingWithout(started, tickets, i, arrivals);
      tickets := tickets[..i] + tickets[i + 1..];
      if wasFirst && first != null { first.due := true; }
      forall w | w in queue && !w.due ensures Asleep(w) {
        assert w in old(queue) && old(Asleep(w));
      }
    }

    /** Tell every waiter of a budget that is used up. */
    method BudgetChanged(key: string)
      requires Linked() && key in budgets
      modifies queue`due
      ensures forall w :: w in queue ==> w.due == (old(w.due) || (w.budget == Some(key) && Exhausted(Some(key))))
    {
      if budgets[key].successes < budgets[key].stop { return; }
      var waiter := first;
      ghost var k := 0;
      while waiter != null
        invariant 0 <= k <= |queue| && waiter == (if k < |queue| then queue[k] else null)
        invariant Linked()
        invariant forall i :: 0 <= i < |queue| ==>
          queue[i].due == (old(queue[i].due) || (i < k && queue[i].budget == Some(key)))
        decreases |queue| - k
      {
        assert LinkedAt(queue, k);
        OnlyAt(queue, k);
        if waiter.budget == Some(key) { waiter.due := true; }
        waiter := waiter.next;
        k := k + 1;
      }
    }

    /** Why a waiter must give up now, in the order in which the reasons are looked at. */
    function Reason(waiter: StartWaiter, now: int, cancelled: bool, barred: bool): Option<string>
      reads this`destroyed, this`budgets, this`excluded, waiter`cancelled
    {
      if waiter.cancelled || cancelled then Some("CLAIM_CANCELLED")
      else if now >= waiter.deadline then Some("CLAIM_TIMEOUT")
      else if destroyed then Some("CLAIM_CANCELLED")
      else if Exhausted(waiter.budget) then Some("CLAIM_BUDGET")
      else if Barred(waiter.endpoint, now) || barred then Some("CLAIM_LOCAL_UNAVAILABLE")
      else None
    }

    /** The schedule that the head meets. */
    ghost function HeadPace(now: int): Pace
      reads this`rebasePending, pacer
    {
      if rebasePending then Resumed(pacer.State(), now) else pacer.State()
    }

    /** How the turn of the head must end while the gate is open. */
    ghost function HeadVerdict(waiter: StartWaiter, v: View): Outcome
      reads this`destroyed, this`budgets, this`excluded, this`rebasePending, waiter`cancelled, pacer
    {
      var ready := ReadyAt(HeadPace(v.now), v.now);
      if v.now < ready then Waits(Min(waiter.deadline, ready))
      else
        var late := Reason(waiter, v.again, v.cancelled, v.excludedLate);
        if late.Some? then Fails(late.value) else if v.failure.Some? then Fails(v.failure.value) else Starts
    }

    /** How a turn must end. */
    ghost function Verdict(waiter: StartWaiter, v: View): Outcome
      reads this`destroyed, this`budgets, this`excluded, this`allowed, this`first, this`rebasePending
      reads waiter`cancelled, pacer
    {
      var reason := Reason(waiter, v.checked, false, false);
      if reason.Some? then Fails(reason.value)
      else if !allowed || first != waiter then Waits(waiter.deadline)
      else HeadVerdict(waiter, v)
    }

    /** The ready time for the head; a reset asked for earlier is taken now. */
    method HeadReady(now: int) returns (ready: int)
      requires pacer.Valid() && pacer.clock <= now
      modifies this`rebasePending, pacer
      ensures pacer.Valid() && pacer.clock == now && !rebasePending
      ensures pacer.State() == old(HeadPace(now))
      ensures ready == ReadyAt(pacer.State(), now)
    {
      hide ReadyAt;
      hide pacer.Valid;
      if rebasePending {
        pacer.ResumeAt(now);
        rebasePending := false;
      }
      ready := pacer.Ready(now);
    }

    /** A waiter is awake at a time. */
    method Wake(waiter: StartWaiter, now: int)
      requires Valid() && clock <= now
      modifies this`clock, waiter`due
      ensures Valid() && clock == now && waiter.due
    {
      hide Linked;
      hide InOrder;
      hide Exhausted;
      hide ReadyAt;
      hide pacer.Valid;
      waiter.due := true;
      clock := now;
      forall w | w in queue && !w.due ensures Asleep(w) { assert old(Asleep(w)); }
    }

    /** A waiter has no reason to give up but the time. */
    ghost predicate MayWait(waiter: StartWaiter)
      reads this`destroyed, this`budgets, this`excluded, this`clock, waiter`cancelled
    {
      !waiter.cancelled && !destroyed && !Exhausted(waiter.budget) && !Barred(waiter.endpoint, clock)
    }

    /** A waiter goes to sleep until a time that serves it. */
    method Sleep(waiter: StartWaiter, until: int)
      requires Valid() && waiter in queue && MayWait(waiter) && until <= waiter.deadline
      requires waiter == first && allowed ==>
        !rebasePending && (until < waiter.deadline ==> pacer.initialized && ReadyAt(pacer.State(), until) <= until)
      modifies waiter`due, waiter`until
      ensures Valid() && !waiter.due && waiter.until == until
    {
      hide Linked;
      hide InOrder;
      hide Exhausted;
      hide ReadyAt;
      hide pacer.Valid;
      waiter.until := until;
      waiter.due := false;
      assert Asleep(waiter);
      forall w | w in queue && !w.due ensures Asleep(w) { assert w != waiter ==> old(Asleep(w)); }
    }

    lemma Told()
      requires pacer.Valid()
      ensures Sorted(pacer.starts) && pacer.rate > 0 && (pacer.initialized || pacer.starts == [])
    {
    }

    /** The head asks the schedule, for good or to learn how long to sleep. */
    method Ask(now: int) returns (ready: int)
      requires Valid() && clock <= now && first != null && first.due
      modifies this`rebasePending, this`clock, pacer
      ensures Valid() && clock == now == pacer.clock && !rebasePending
      ensures pacer.State() == old(HeadPace(now))
      ensures ready == ReadyAt(pacer.State(), now) && Sorted(pacer.starts) && pacer.rate > 0
      ensures now < ready ==> pacer.initialized && ReadyAt(pacer.State(), ready) <= ready
      ensures now >= ready ==> Recent(pacer.starts, now) < pacer.rate
    {
      hide Linked;
      hide InOrder;
      hide Exhausted;
      hide ReadyAt;
      hide pacer.Valid;
      ready := HeadReady(now);
      clock := now;
      assert Sorted(pacer.starts) && pacer.rate > 0 && (pacer.initialized || pacer.starts == []) by { Told(); }
      if now < ready { ReadyWhenSaid(pacer.State(), now); } else { ReadyMeansRoom(pacer.State(), now); }
      forall w | w in queue && !w.due ensures Asleep(w) { assert old(Asleep(w)); }
    }

    /** The start of the head goes into the rolling history. */
    method Note(waiter: StartWaiter, now: int)
      requires Valid() && waiter == first && clock <= now && Recent(pacer.starts, now) < pacer.rate
      modifies this`clock, waiter`due, pacer, pacer.ring
      ensures Valid() && clock == now && waiter.due
      ensures pacer.State() == Recorded(old(pacer.State()), now) && Recent(pacer.starts, now) <= pacer.rate
    {
      hide Linked;
      hide InOrder;
      hide ReadyAt;
      hide Recent;
      hide Recorded;
      hide pacer.Valid;
      hide Exhausted;
      Wake(waiter, now);
      label Awake:
      pacer.Record(now);
      forall w | w in queue && !w.due ensures Asleep(w) { assert old@Awake(Asleep(w)); }
    }

    /** The head has started: its start is recorded and it leaves. */
    method Started(waiter: StartWaiter, now: int)
      requires Valid() && queue != [] && queue[0] == waiter == first && clock <= now &&
               Recent(pacer.starts, now) < pacer.rate
      modifies this`first, this`last, this`queue, this`tickets, this`started, this`clock, pacer, pacer.ring
      modifies queue`previous, queue`next, queue`due, waiter`due
      ensures Valid() && queue == old(queue)[1..] && clock == now
      ensures tickets == old(tickets)[1..] && started == old(started) + [old(tickets)[0]]
      ensures pacer.State() == Recorded(old(pacer.State()), now) && Recent(pacer.starts, now) <= pacer.rate
    {
      hide Attended;
      hide Linked;
      hide ReadyAt;
      hide Recent;
      hide Recorded;
      hide pacer.Valid;
      hide Increasing;
      hide Exhausted;
      ghost var q, t := queue, tickets;
      assert q[..0] + q[1..] == q[1..] && t[..0] + t[1..] == t[1..];
      assert (started + [t[0]]) + t[1..] == started + t;
      Note(waiter, now);
      Remove(waiter, 0);
      started := started + [t[0]];
    }

    lemma FirstIsHead(waiter: StartWaiter, i: nat)
      requires Valid() && i < |queue| && queue[i] == waiter
      ensures |tickets| == |queue| && (first == waiter <==> i == 0) && first != null
      ensures i == 0 ==> queue[..0] + queue[1..] == queue[1..] && tickets[..0] + tickets[1..] == tickets[1..]
    {
      OnlyAt(queue, i);
    }

    /** The turn of the head while the gate is open. */
    method HeadTurn(waiter: StartWaiter, v: View) returns (o: Outcome)
      requires Valid() && queue != [] && queue[0] == waiter == first && allowed && waiter.due && MayWait(waiter)
      requires clock <= v.now <= v.again <= v.recorded
      modifies this`first, this`last, this`queue, this`tickets, this`started, this`rebasePending, this`clock
      modifies queue`previous, queue`next, queue`due, waiter`until, pacer, pacer.ring
      ensures Valid()
      ensures o == old(HeadVerdict(waiter, v))
      ensures o.Waits? ==> queue == old(queue) && tickets == old(tickets) && !waiter.due && waiter.until == o.until
      ensures !o.Waits? ==> queue == old(queue)[1..] && tickets == old(tickets)[1..]
      ensures o.Starts? ==> started == old(started) + [old(tickets)[0]]
      ensures o.Starts? ==>
        pacer.State() == Recorded(old(HeadPace(v.now)), v.recorded) && Recent(pacer.starts, v.recorded) <= pacer.rate
      ensures !o.Starts? ==> started == old(started) && pacer.starts == old(pacer.starts)
    {
      hide Valid;
      hide ReadyAt;
      hide Recent;
      hide Recorded;
      hide Exhausted;
      FirstIsHead(waiter, 0);
      var ready := Ask(v.now);
      if v.now < ready {
        Sleep(waiter, Min(waiter.deadline, ready));
        return Waits(waiter.until);
      }
      var late := Reason(waiter, v.again, v.cancelled, v.excludedLate);
      if late.Some? {
        Remove(waiter, 0);
        return Fails(late.value);
      }
      if v.failure.Some? {
        Remove(waiter, 0);
        return Fails(v.failure.value);
      }
      RecentShrinks(pacer.starts, v.now, v.recorded);
      Started(waiter, v.recorded);
      return Starts;
    }

    /**
      A waiter that holds the mutex takes its turn. Every way out but going back to
      sleep takes it off the list, and only the head of the list starts.
    */
    method TakeTurn(waiter: StartWaiter, ghost i: nat, v: View) returns (o: Outcome)
      requires Valid() && i < |queue| && queue[i] == waiter
      requires clock <= v.checked <= v.now <= v.again <= v.recorded
      modifies this`first, this`last, this`queue, this`tickets, this`started, this`rebasePending, this`clock
      modifies queue`previous, queue`next, queue`due, waiter`until, pacer, pacer.ring
      ensures Valid()
      ensures o == old(Verdict(waiter, v))
      ensures o.Waits? ==> queue == old(queue) && tickets == old(tickets) && !waiter.due && waiter.until == o.until
      ensures !o.Waits? ==>
        queue == old(queue)[..i] + old(queue)[i + 1..] && tickets == old(tickets)[..i] + old(tickets)[i + 1..]
      ensures o.Starts? ==> i == 0 && started == old(started) + [old(tickets)[0]]
      ensures o.Starts? ==>
        pacer.State() == Recorded(old(HeadPace(v.now)), v.recorded) && Recent(pacer.starts, v.recorded) <= pacer.rate
      ensures !o.Starts? ==> started == old(started) && pacer.starts == old(pacer.starts)
    {
      hide Valid;
      hide ReadyAt;
      hide Recent;
      hide Recorded;
      hide Exhausted;
      FirstIsHead(waiter, i);
      Wake(waiter, v.checked);
      var reason := Reason(waiter, v.checked, false, false);
      if reason.Some? {
        Remove(waiter, i);
        return Fails(reason.value);
      }
      if !allowed || first != waiter {
        Sleep(waiter, waiter.deadline);
        return Waits(waiter.deadline);
      }
      o := HeadTurn(waiter, v);
    }

    /** An address is free at a time: neither it nor its family is excluded beyond that. */
    predicate Free(e: Endpoint, now: int)
      reads this`excluded
    {
      (Route(e.address) in excluded ==> excluded[Route(e.address)] <= now) &&
      (Family(e.family) in excluded ==> excluded[Family(e.family)] <= now)
    }

    /** Nothing stands against the start of a waiter but its turn and its pace. */
    predicate Startable(waiter: StartWaiter, now: int)
      reads this`destroyed, this`budgets, this`excluded, waiter`cancelled
    {
      !waiter.cancelled && now < waiter.deadline && !destroyed &&
      (waiter.budget.Some? && waiter.budget.value in budgets ==>
         budgets[waiter.budget.value].successes < budgets[waiter.budget.value].stop) &&
      (waiter.endpoint.Some? ==> Free(waiter.endpoint.value, now))
    }

    /**
      Theorem: a turn ends in a start exactly if the waiter is the head of an open gate, its pace lets
      it, nothing stands against it at either look, and the connect succeeds; and a waiter sleeps only
      if nothing stood against it.
    */
    lemma StartsExactly(waiter: StartWaiter, v: View)
      requires v.checked <= v.now <= v.again
      ensures Verdict(waiter, v) == Starts <==>
              first == waiter && allowed && ReadyAt(HeadPace(v.now), v.now) <= v.now && Startable(waiter, v.checked) &&
              Startable(waiter, v.again) && !v.cancelled && !v.excludedLate && v.failure == None
      ensures Verdict(waiter, v).Waits? <==>
              Startable(waiter, v.checked) &&
              (first == waiter && allowed ==> v.now < ReadyAt(HeadPace(v.now), v.now))
      ensures Verdict(waiter, v).Waits? ==>
              Verdict(waiter, v).until <= waiter.deadline &&
              (first == waiter && allowed && Verdict(waiter, v).until < waiter.deadline ==>
                 Verdict(waiter, v).until == ReadyAt(HeadPace(v.now), v.now))
    {
      hide ReadyAt;
      hide HeadPace;
    }

    /** Theorem: a budget that was bound with the stop of its target is exhausted exactly past the cutoff. */
    lemma ExhaustedPastCutoff(key: string, target: nat)
      requires key in budgets && budgets[key].stop == BudgetCutoff.StopCount(target)
      ensures Exhausted(Some(key)) <==>
              budgets[key].successes == MAX_COUNT ||
              budgets[key].successes * (target + 1) > BudgetCutoff.TwiceSpace()
    {
      BudgetCutoff.StopDecidesExhausted(target, budgets[key].successes);
    }

    /** Theorem: a head that nobody has told anything starts as soon as its timed wait is over. */
    lemma HeadStartsOnTime(v: View)
      requires Valid() && queue != [] && !queue[0].due && allowed
      requires clock <= v.checked <= v.now <= v.again && queue[0].until <= v.now
      requires Reason(queue[0], v.checked, false, false) == None &&
               Reason(queue[0], v.again, v.cancelled, v.excludedLate) == None
      requires v.failure == None
      ensures Verdict(queue[0], v) == Starts
    {
      assert queue[0] in queue && Asleep(queue[0]);
      assert TimerServes(queue[0]);
      ReadyLasts(pacer.State(), queue[0].until, v.now);
    }

    /**
      Theorem: whoever sleeps on untold has no reason to give up but the time, and a cancellation or an exclusion
      that is about to be announced.
    */
    lemma SleepersMayWait(waiter: StartWaiter, now: int)
      requires Valid() && waiter in queue && !waiter.due && clock <= now < waiter.deadline
      ensures Reason(waiter, now, false, false) ==
              if waiter.cancelled then Some("CLAIM_CANCELLED")
              else if Barred(waiter.endpoint, now) then Some("CLAIM_LOCAL_UNAVAILABLE") else None
      ensures waiter.cancelled ==> waiter.cancelling
      ensures Barred(waiter.endpoint, now) ==> exists x :: x in announcing && Concerns(x, waiter.endpoint)
    {
      assert Asleep(waiter);
      if Barred(waiter.endpoint, now) {
        var e := waiter.endpoint.value;
        var x := if InForce(Route(e.address), now) then Route(e.address) else Family(e.family);
        assert Concerns(x, waiter.endpoint) && InForce(x, clock);
      }
    }

    /** Tell every waiter. */
    method NotifyAll()
      requires Linked()
      modifies queue`due
      ensures forall w :: w in queue ==> w.due
    {
      var waiter := first;
      ghost var k := 0;
      while waiter != null
        invariant 0 <= k <= |queue| && waiter == (if k < |queue| then queue[k] else null)
        invariant Linked()
        invariant forall i :: 0 <= i < k ==> queue[i].due
        decreases |queue| - k
      {
        assert LinkedAt(queue, k);
        waiter.due := true;
        waiter := waiter.next;
        k := k + 1;
      }
    }

    method SetRate(rate: int) returns (r: Result<()>)
      requires Valid()
      modifies pacer`rate, pacer`next, queue`due
      ensures Valid()
      ensures r.Ok? <==> 1 <= rate <= SLOTS && !destroyed
      ensures pacer.State() == if r.Ok? then Retuned(old(pacer.State()), rate) else old(pacer.State())
    {
      hide InOrder;
      hide Exhausted;
      hide ReadyAt;
      hide pacer.Valid;
      if rate < 1 || rate > SLOTS { return Err("CLAIM_CONTEXT"); }
      if destroyed { return Err("CLAIM_CANCELLED"); }
      pacer.ChangeRate(rate);
      if first != null { first.due := true; }
      forall w | w in queue && !w.due ensures Asleep(w) { assert old(Asleep(w)); }
      return Ok(());
    }

    method SetAllowed(value: bool) returns (r: Result<()>)
      requires Valid()
      modifies this`allowed, this`rebasePending, queue`due
      ensures Valid()
      ensures r.Ok? <==> !destroyed
      ensures allowed == (if r.Ok? then value else old(allowed))
      ensures rebasePending <==> old(rebasePending) || (allowed && !old(allowed))
      ensures forall w :: w in queue ==> w.due == (old(w.due) || allowed != old(allowed))
    {
      hide InOrder;
      hide Exhausted;
      hide ReadyAt;
      hide pacer.Valid;
      if destroyed { return Err("CLAIM_CANCELLED"); }
      if allowed == value { return Ok(()); }
      allowed := value;
      if allowed { rebasePending := true; }
      NotifyAll();
      return Ok(());
    }

    method ResetSchedule() returns (r: Result<()>)
      requires Valid()
      modifies this`rebasePending, queue`due
      ensures Valid()
      ensures r.Ok? <==> !destroyed
      ensures rebasePending == (old(rebasePending) || r.Ok?)
    {
      hide InOrder;
      hide Exhausted;
      hide ReadyAt;
      hide pacer.Valid;
      if destroyed { return Err("CLAIM_CANCELLED"); }
      rebasePending := true;
      if first != null { first.due := true; }
      forall w | w in queue && !w.due ensures Asleep(w) { assert old(Asleep(w)); }
      return Ok(());
    }

    method Destroy()
      requires Valid()
      modifies this`destroyed, queue`due
      ensures Valid() && destroyed && forall w :: w in queue ==> w.due
    {
      hide InOrder;
      hide Exhausted;
      hide ReadyAt;
      hide pacer.Valid;
      destroyed := true;
      NotifyAll();
    }

    /** A budget has changed: who waits for it in vain is told. */
    method SetBudget(key: string, budget: ClaimBudget)
      requires Valid() &&
               (key in budgets ==> budgets[key].stop == budget.stop && budgets[key].successes <= budget.successes)
      modifies this`budgets, queue`due
      ensures Valid() && budgets == old(budgets)[key := budget]
    {
      hide InOrder;
      hide ReadyAt;
      hide pacer.Valid;
      budgets := budgets[key := budget];
      label Set:
      BudgetChanged(key);
      forall w | w in queue && !w.due ensures Asleep(w) { assert old(Asleep(w)); }
    }

    /** One more capture for a budget; the counter saturates. */
    method RecordCapture(key: string)
      requires Valid() && key in budgets
      modifies this`budgets, queue`due
      ensures Valid()
      ensures budgets ==
              old(budgets)[key := old(budgets)[key].(successes := Min(old(budgets)[key].successes + 1, MAX_COUNT))]
    {
      var budget := budgets[key];
      if budget.successes != MAX_COUNT { budget := budget.(successes := budget.successes + 1); }
      SetBudget(key, budget);
    }

    /** The flag of a cancellation is set without the mutex. */
    method SetCancelled(waiter: StartWaiter)
      requires Valid()
      modifies waiter`cancelled, waiter`cancelling
      ensures Valid() && waiter.cancelled
    {
      hide Linked;
      hide InOrder;
      hide Exhausted;
      hide ReadyAt;
      hide pacer.Valid;
      waiter.cancelled, waiter.cancelling := true, true;
      forall w | w in queue && !w.due ensures Asleep(w) { assert old(Asleep(w)); }
    }

    /** The notification that follows the flag. */
    method NotifyCancelled(waiter: StartWaiter)
      requires Valid()
      modifies waiter`due, waiter`cancelling
      ensures Valid() && waiter.due && !waiter.cancelling
    {
      hide Linked;
      hide InOrder;
      hide Exhausted;
      hide ReadyAt;
      hide pacer.Valid;
      waiter.due, waiter.cancelling := true, false;
      forall w | w in queue && !w.due ensures Asleep(w) { assert old(Asleep(w)); }
    }

    /** An exclusion is set, without the mutex. */
    method SetExcluded(x: Exclusion, until: int)
      requires Valid()
      modifies this`excluded, this`announcing
      ensures Valid() && excluded == old(excluded)[x := until] && announcing == old(announcing) + {x}
    {
      hide Linked;
      hide InOrder;
      hide Exhausted;
      hide ReadyAt;
      hide pacer.Valid;
      excluded := excluded[x := until];
      announcing := announcing + {x};
      forall w | w in queue && !w.due ensures Asleep(w) {
        assert old(Asleep(w));
        forall y | Concerns(y, w.endpoint) && InForce(y, clock) ensures y in announcing {
          assert y != x ==> old(InForce(y, clock));
        }
      }
    }

    /** The notification that follows: it tells the waiters that the exclusion concerns. */
    method NotifyExcluded(x: Exclusion)
      requires Valid()
      modifies this`announcing, queue`due
      ensures Valid() && announcing == old(announcing) - {x}
      ensures forall w :: w in queue ==> w.due == (old(w.due) || Concerns(x, w.endpoint))
    {
      hide InOrder;
      hide Exhausted;
      hide ReadyAt;
      hide pacer.Valid;
      TellConcerned(x);
      announcing := announcing - {x};
      forall w | w in queue && !w.due ensures Asleep(w) {
        assert old(Asleep(w));
        forall y | Concerns(y, w.endpoint) && InForce(y, clock) ensures y in announcing {
          assert old(InForce(y, clock));
        }
      }
    }

    method TellConcerned(x: Exclusion)
      requires Linked()
      modifies queue`due
      ensures forall w :: w in queue ==> w.due == (old(w.due) || Concerns(x, w.endpoint))
    {
      hide Concerns;
      var waiter := first;
      ghost var k := 0;
      while waiter != null
        invariant 0 <= k <= |queue| && waiter == (if k < |queue| then queue[k] else null)
        invariant Linked()
        invariant forall i :: 0 <= i < |queue| ==>
          queue[i].due == (old(queue[i].due) || (i < k && Concerns(x, queue[i].endpoint)))
        decreases |queue| - k
      {
        assert LinkedAt(queue, k);
        OnlyAt(queue, k);
        if Concerns(x, waiter.endpoint) { waiter.due := true; }
        waiter := waiter.next;
        k := k + 1;
      }
    }
  }
}
