/**
  Turns over whole runs: fair and economic reservations alternate, and fair ones go round the ready domains in order.
*/
module SchedulerTurns {
  import opened Outcomes
  import opened SchedulerSteps
  import opened SchedulerProbes
  import opened SchedulerPacing

  // -----------------------------------------------------------------
  // The next domain in cyclic order
  // -----------------------------------------------------------------

  /** The least ready domain behind a place, or else the least of all. */
  predicate CyclicNext(ready: seq<Domain>, place: Domain, domain: Domain) {
    domain in ready &&
    if exists i :: 0 <= i < |ready| && ready[i] > place
    then domain > place && forall i :: 0 <= i < |ready| && ready[i] > place ==> domain <= ready[i]
    else forall i :: 0 <= i < |ready| ==> domain <= ready[i]
  }

  /** The domain of the last fair turn. */
  function LastFair(turns: seq<Turn>): Domain {
    if turns == [] then 0
    else if !turns[|turns| - 1].economic then turns[|turns| - 1].domain
    else LastFair(turns[..|turns| - 1])
  }

  lemma LastFairMore(turns: seq<Turn>, x: Turn)
    ensures LastFair(turns + [x]) == if x.economic then LastFair(turns) else x.domain
  {
    assert (turns + [x])[..|turns|] == turns;
  }

  // -----------------------------------------------------------------
  // The walk over the domains
  // -----------------------------------------------------------------

  /** Every entry stands under its own domain. */
  ghost predicate Filed(groups: map<Domain, seq<seq<Entry>>>) {
    forall d :: d in groups ==> UnderDomain(groups[d], d)
  }

  ghost predicate UnderDomain(masks: seq<seq<Entry>>, d: Domain) {
    forall m, i :: 0 <= m < |masks| && 0 <= i < |masks[m]| ==> masks[m][i].domain == d
  }

  ghost predicate BestOf(b: Best, d: Domain) {
    b.best.Some? ==> b.best.value.domain == d
  }

  lemma {:induction false} BestUnder(b: Best, masks: seq<seq<Entry>>, now: real, d: Domain)
    requires BestOf(b, d) && UnderDomain(masks, d)
    ensures BestOf(WeighAll(b, masks, now), d)
    decreases |masks|
  {
    hide Asked;
    hide ProbeReady;
    if masks != [] {
      assert forall m :: 0 <= m < |masks[1..]| ==> masks[1..][m] == masks[m + 1];
      BestUnder(if masks[0] == [] then b else Weigh(b, masks[0][0], now), masks[1..], now, d);
    }
  }

  /** What the walk has found so far is the fair choice among the ready domains so far. */
  ghost predicate FairSoFar(f: Found) {
    Sorted(f.ready) && (f.first == None <==> f.ready == []) && (f.first.Some? ==> f.first.value.domain == f.ready[0]) &&
    (f.after == None ==> forall i :: 0 <= i < |f.ready| ==> f.ready[i] <= f.s.domainAfter) &&
    (f.after.Some? ==> f.after.value.domain in f.ready && f.after.value.domain > f.s.domainAfter &&
                       forall i :: 0 <= i < |f.ready| && f.ready[i] > f.s.domainAfter ==>
                         f.after.value.domain <= f.ready[i])
  }

  /** The ready domains all come before a place. */
  ghost predicate AllBefore(ready: seq<Domain>, d: Domain) {
    forall i :: 0 <= i < |ready| ==> ready[i] < d
  }

  /** One more ready domain, behind the others. */
  lemma FairMore(f: Found, g: Found, d: Domain, best: Entry)
    requires FairSoFar(f) && AllBefore(f.ready, d) && best.domain == d && g.s.domainAfter == f.s.domainAfter
    requires g.first == if f.first == None then Some(best) else f.first
    requires g.after == if f.after == None && d > f.s.domainAfter then Some(best) else f.after
    requires g.ready == f.ready + [d]
    ensures FairSoFar(g) && AllBefore(g.ready, d + 1)
  {
  }

  lemma VisitFair(f: Found, d: Domain, now: real, prepared: bool)
    requires ProbesOk(f.s) && FairSoFar(f) && Filed(f.s.groups) && AllBefore(f.ready, d)
    ensures FairSoFar(Visit(f, d, now, prepared)) && AllBefore(Visit(f, d, now, prepared).ready, d + 1)
  {
    hide ProbesOk;
    hide WeighAll;
    hide Better;
    hide Sorted;
    var masks := if d in f.s.groups then f.s.groups[d] else [];
    BestUnder(Best(f.s, None), masks, now, d);
    WeighAllOk(Best(f.s, None), masks, now);
    var best := WeighAll(Best(f.s, None), masks, now).best;
    if best.Some? && best.value.prepared == prepared {
      hide FairSoFar;
      hide AllBefore;
      FairMore(f, Visit(f, d, now, prepared), d, best.value);
    }
  }

  lemma {:induction false} VisitAllFair(f: Found, names: seq<Domain>, now: real, prepared: bool)
    requires ProbesOk(f.s) && FairSoFar(f) && Filed(f.s.groups) && Sorted(names) &&
             (names != [] ==> AllBefore(f.ready, names[0]))
    ensures FairSoFar(VisitAll(f, names, now, prepared))
    decreases |names|
  {
    hide FairSoFar;
    hide ProbesOk;
    hide Filed;
    hide Visit;
    if names != [] {
      VisitFair(f, names[0], now, prepared);
      VisitOk(f, names[0], now, prepared);
      var g := Visit(f, names[0], now, prepared);
      assert Sorted(names[1..]);
      assert names[1..] != [] ==> AllBefore(g.ready, names[1]);
      VisitAllFair(g, names[1..], now, prepared);
    }
  }

  /** A fair choice is the next ready domain in cyclic order. */
  lemma FairChoice(f: Found)
    requires FairSoFar(f) && !f.s.economic && Chosen(f).Some?
    ensures CyclicNext(f.ready, f.s.domainAfter, Chosen(f).value.domain)
  {
    if f.after.Some? {
      var i :| 0 <= i < |f.ready| && f.ready[i] == f.after.value.domain;
    }
  }

  // -----------------------------------------------------------------
  // What every call keeps
  // -----------------------------------------------------------------

  ghost predicate RowsOk(s: Scheduler) {
    Sorted(s.names) && Filed(s.groups)
  }

  /** Fair and economic turns alternate, beginning with a fair one; parity survives the wrap of the serial number. */
  ghost predicate Alternates(s: Scheduler) {
    s.serial == Wrapped(|s.turns|) && (s.economic <==> |s.turns| % 2 == 1) &&
    (forall k :: 0 <= k < |s.turns| ==> (s.turns[k].economic <==> k % 2 == 1)) &&
    (forall id :: id in s.selections ==>
       id < s.nextSelection && (s.selections[id].economic <==> s.selections[id].serial % 2 == 1))
  }

  /**
    A fair turn goes to the next domain that was ready when it was chosen, unless its choice had been overtaken by other
    turns; it is then some whole number of wraps of the serial number old.
  */
  ghost predicate FairTurn(turns: seq<Turn>, k: nat)
    requires k < |turns|
  {
    turns[k].made <= k && (k - turns[k].made) % SERIALS == 0 &&
    (!turns[k].economic && turns[k].made == k ==>
       CyclicNext(turns[k].ready, LastFair(turns[..k]), turns[k].domain))
  }

  ghost predicate FairSelection(s: Scheduler, c: Selection) {
    c.made <= |s.turns| && c.serial == Wrapped(c.made) &&
    (!c.economic && c.made == |s.turns| ==> CyclicNext(c.ready, s.domainAfter, c.entry.domain))
  }

  ghost predicate GoesRound(s: Scheduler) {
    s.domainAfter == LastFair(s.turns) &&
    (forall id :: id in s.selections ==> FairSelection(s, s.selections[id])) &&
    forall k :: 0 <= k < |s.turns| ==> FairTurn(s.turns, k)
  }

  ghost predicate TurnsOk(s: Scheduler) {
    ProbesOk(s) && RowsOk(s) && Alternates(s) && GoesRound(s)
  }

  lemma GrownTurns(s: Scheduler, t: Scheduler)
    requires TurnsOk(s) && ProbesOk(t) && Grown(s, t)
    ensures TurnsOk(t)
  {
    hide ProbesOk;
    hide Filed;
    hide FairTurn;
    forall id | id in t.selections ensures FairSelection(t, t.selections[id]) {
      assert FairSelection(s, s.selections[id]);
    }
  }

  lemma ChooseTurns(s: Scheduler, now: real, prepared: bool)
    requires TurnsOk(s)
    ensures TurnsOk(Next(s, now, prepared))
  {
    hide Next;
    hide Walked;
    hide Chosen;
    hide TurnsOk;
    hide CyclicNext;
    assert ProbesOk(s) && RowsOk(s) by { Pieces(s); }
    var t := NextChanges(s, now, prepared);
    GrownTurns(s, t);
    var f, n := Walked(s, now, prepared), Next(s, now, prepared);
    if Chosen(f) != None {
      WalkedFair(s, now, prepared);
      ChosenTurns(t, n, f.ready);
    }
  }

  lemma Pieces(s: Scheduler)
    requires TurnsOk(s)
    ensures ProbesOk(s) && RowsOk(s)
  {
  }

  lemma WalkedFair(s: Scheduler, now: real, prepared: bool)
    requires ProbesOk(s) && RowsOk(s) && Chosen(Walked(s, now, prepared)).Some?
    ensures !s.economic ==>
              CyclicNext(Walked(s, now, prepared).ready, s.domainAfter, Chosen(Walked(s, now, prepared)).value.domain)
  {
    hide ProbesOk;
    hide VisitAll;
    hide CyclicNext;
    hide Chosen;
    var f := Found(s, None, None, None, []);
    VisitAllFair(f, s.names, now, prepared);
    VisitAllOk(f, s.names, now, prepared);
    if !s.economic { FairChoice(Walked(s, now, prepared)); }
  }

  lemma ChosenTurns(t: Scheduler, n: Scheduler, ready: seq<Domain>)
    requires TurnsOk(t)
    requires n == t.(selections := n.selections, nextSelection := n.nextSelection) &&
             n.nextSelection == t.nextSelection + 1
    requires t.nextSelection in n.selections &&
             n.selections == t.selections[t.nextSelection := n.selections[t.nextSelection]]
    requires var c := n.selections[t.nextSelection];
             c.economic == t.economic && c.serial == t.serial && c.made == |t.turns| && c.ready == ready &&
             (!t.economic ==> CyclicNext(ready, t.domainAfter, c.entry.domain))
    ensures TurnsOk(n)
  {
    hide Wrapped;
    hide FairTurn;
    hide Filed;
    hide CyclicNext;
    assert ProbesOk(n) by { RowsApart(t, n); }
    hide ProbesOk;
    Parity(|t.turns|);
    forall id | id in n.selections ensures FairSelection(n, n.selections[id]) {
      if id != t.nextSelection { assert FairSelection(t, t.selections[id]); }
    }
  }

  lemma Remainder(n: nat, q: nat, r: nat)
    requires n == q * SERIALS + r && r < SERIALS
    ensures Wrapped(n) == r
  {
  }

  lemma Parity(n: nat)
    ensures Wrapped(n) % 2 == n % 2 && Wrapped(n + 1) == Wrapped(Wrapped(n) + 1)
  {
    var q, r := n / SERIALS, n % SERIALS;
    assert n == q * SERIALS + r;
    assert r == Wrapped(n);
    hide Wrapped;
    Remainder(r, 0, r);
    if r + 1 < SERIALS {
      Remainder(n + 1, q, r + 1);
      Remainder(r + 1, 0, r + 1);
    } else {
      Remainder(n + 1, q + 1, 0);
      Remainder(r + 1, 1, 0);
    }
  }

  lemma WholeWraps(m: nat, n: nat)
    requires m <= n && Wrapped(m) == Wrapped(n)
    ensures (n - m) % SERIALS == 0
  {
    assert n - m == (n / SERIALS - m / SERIALS) * SERIALS;
  }

  lemma TakeTurns(s: Scheduler, id: SelectionId, time: real)
    requires TurnsOk(s)
    ensures TurnsOk(Reserve(s, id, time))
  {
    hide Wrapped;
    hide GateOpen;
    hide DueOf;
    hide CyclicNext;
    hide Filed;
    var t := Reserve(s, id, time);
    assert ProbesOk(t) by { RowsApart(s, t); }
    hide ProbesOk;
    if Reservable(s, id, time) {
      Parity(|s.turns|);
      TakeAlternates(s, id, time);
      TakeRound(s, id, time);
    }
  }

  lemma TakeAlternates(s: Scheduler, id: SelectionId, time: real)
    requires Alternates(s) && Reservable(s, id, time)
    ensures Alternates(Reserve(s, id, time))
  {
    hide Wrapped;
    hide GateOpen;
    hide DueOf;
    Parity(|s.turns|);
  }

  lemma TakeRound(s: Scheduler, id: SelectionId, time: real)
    requires Alternates(s) && GoesRound(s) && Reservable(s, id, time)
    ensures GoesRound(Reserve(s, id, time))
  {
    hide Wrapped;
    Parity(|s.turns|);
    hide GateOpen;
    hide DueOf;
    hide CyclicNext;
    var t, c := Reserve(s, id, time), s.selections[id];
    var x := Turn(c.economic, c.entry.domain, c.ready, c.made);
    LastFairMore(s.turns, x);
    hide LastFair;
    assert FairSelection(s, c);
    WholeWraps(c.made, |s.turns|);
    forall k | 0 <= k < |t.turns| ensures FairTurn(t.turns, k) {
      if k < |s.turns| {
        assert t.turns[..k] == s.turns[..k] && FairTurn(s.turns, k);
      } else {
        assert t.turns[..k] == s.turns;
      }
    }
    forall id | id in t.selections ensures FairSelection(t, t.selections[id]) {
      assert FairSelection(s, s.selections[id]);
    }
  }

  /** A call that changes neither turns nor choices but for their commitment. */
  lemma SameTurns(s: Scheduler, t: Scheduler)
    requires TurnsOk(s) && ProbesOk(t) && RowsOk(t)
    requires t.turns == s.turns && t.serial == s.serial && t.economic == s.economic && t.domainAfter == s.domainAfter
    requires t.nextSelection == s.nextSelection && t.selections.Keys == s.selections.Keys
    requires forall id :: id in s.selections ==>
      t.selections[id] == s.selections[id].(committed := t.selections[id].committed)
    ensures TurnsOk(t)
  {
    hide ProbesOk;
    hide RowsOk;
    hide FairTurn;
    hide CyclicNext;
    forall id | id in t.selections ensures FairSelection(t, t.selections[id]) {
      assert FairSelection(s, s.selections[id]);
    }
  }

  lemma ConfirmProbes(s: Scheduler, id: SelectionId, now: real)
    requires ProbesOk(s)
    ensures ProbesOk(Acknowledge(s, id, now))
  {
    hide ProbesOk;
    var t := Acknowledge(s, id, now);
    if Acknowledgeable(s, id) {
      var c := s.selections[id];
      var u := s.(selections := s.selections[id := c.(committed := true)]);
      RowsApart(s, u);
      if c.entry.recovering && c.probe.Some? && c.probe.value in u.heap {
        StartedOk(u, c.entry.policy, c.probe.value, now);
        RowsApart(Started(u, c.entry.policy, c.probe.value, now), t);
      } else {
        RowsApart(u, t);
      }
    }
  }

  /** New rows are sorted and filed under their domains. */
  ghost predicate RowsProper(call: Call) {
    call.Rows? ==> Sorted(call.names) && Filed(call.groups)
  }

  lemma StartedKeeps(s: Scheduler, policy: Policy, id: ProbeId, now: real)
    requires id in s.heap
    ensures var u := Started(s, policy, id, now);
            u == s.(heap := u.heap, nextGlobal := u.nextGlobal, order := u.order, starts := u.starts)
  {
    hide Others;
  }

  /** An acknowledgement changes a choice's commitment, the probes and the gate. */
  lemma ConfirmKeeps(s: Scheduler, id: SelectionId, now: real)
    ensures var t := Acknowledge(s, id, now);
            t == s.(selections := t.selections, heap := t.heap, nextGlobal := t.nextGlobal, order := t.order,
                    starts := t.starts, pending := t.pending) &&
            t.selections == if Acknowledgeable(s, id)
              then s.selections[id := s.selections[id].(committed := true)]
              else s.selections
  {
    hide Started;
    if Acknowledgeable(s, id) {
      var c := s.selections[id];
      var u := s.(selections := s.selections[id := c.(committed := true)]);
      if c.probe.Some? && c.probe.value in u.heap { StartedKeeps(u, c.entry.policy, c.probe.value, now); }
    }
  }

  lemma ConfirmTurns(s: Scheduler, id: SelectionId, now: real)
    requires TurnsOk(s)
    ensures TurnsOk(Acknowledge(s, id, now))
  {
    Pieces(s);
    hide TurnsOk;
    hide ProbesOk;
    hide Acknowledge;
    hide Filed;
    ConfirmKeeps(s, id, now);
    ConfirmProbes(s, id, now);
    SameTurns(s, Acknowledge(s, id, now));
  }

  lemma RowsTurns(s: Scheduler, admitted: seq<Policy>, names: seq<Domain>, groups: map<Domain, seq<seq<Entry>>>)
    requires TurnsOk(s) && Sorted(names) && Filed(groups)
    ensures TurnsOk(Rebuild(s, admitted, names, groups))
  {
    Pieces(s);
    hide TurnsOk;
    hide ProbesOk;
    hide ProbedAll;
    hide Grown;
    ProbedAllOk(s, admitted);
    GrownTurns(s, ProbedAll(s, admitted));
    RowsApart(ProbedAll(s, admitted), Rebuild(s, admitted, names, groups));
    SameTurns(ProbedAll(s, admitted), Rebuild(s, admitted, names, groups));
  }

  lemma QuietTurns(s: Scheduler, t: Scheduler)
    requires TurnsOk(s) && (t == Clear(s) || t == s.(pending := None))
    ensures TurnsOk(t)
  {
    Pieces(s);
    hide TurnsOk;
    hide ProbesOk;
    RowsApart(s, t);
    SameTurns(s, t);
  }

  lemma StepTurns(s: Scheduler, call: Call)
    requires TurnsOk(s) && RowsProper(call)
    ensures TurnsOk(Step(s, call))
  {
    hide TurnsOk;
    hide Next;
    hide Reserve;
    hide Acknowledge;
    hide Rebuild;
    match call {
      case Choose(now, prepared) => ChooseTurns(s, now, prepared);
      case Take(id, time) => TakeTurns(s, id, time);
      case Confirm(id, now) => ConfirmTurns(s, id, now);
      case Drop(id) => if s.pending == Some(id) { QuietTurns(s, Release(s, id)); }
      case Rows(admitted, names, groups) => RowsTurns(s, admitted, names, groups);
      case Forget => QuietTurns(s, Clear(s));
    }
  }

  lemma {:induction false} RunTurns(s: Scheduler, calls: seq<Call>)
    requires TurnsOk(s) && forall i :: 0 <= i < |calls| ==> RowsProper(calls[i])
    ensures TurnsOk(After(s, calls))
    decreases |calls|
  {
    hide TurnsOk;
    hide Step;
    hide RowsProper;
    if calls != [] {
      StepTurns(s, calls[0]);
      assert forall i :: 0 <= i < |calls[1..]| ==> calls[1..][i] == calls[i + 1];
      RunTurns(Step(s, calls[0]), calls[1..]);
    }
  }

  lemma StartTurns()
    ensures TurnsOk(START)
  {
  }

  /**
    Theorem: in every run, whatever clocks, acknowledgements and releases do, successful reservations alternate, a fair
    one first. A fair one goes to the next domain, in the cyclic order of names, that was ready when it was chosen, if
    there was no turn since; and if there were turns since, it was a whole multiple of 2^64 of them.
  */
  lemma TurnsAlternate(calls: seq<Call>)
    requires forall i :: 0 <= i < |calls| ==> RowsProper(calls[i])
    ensures var turns := After(START, calls).turns;
            (forall k :: 0 <= k < |turns| ==> (turns[k].economic <==> k % 2 == 1)) &&
            forall k :: 0 <= k < |turns| ==> FairTurn(turns, k)
  {
    hide After;
    hide FairTurn;
    StartTurns();
    RunTurns(START, calls);
  }

  // -----------------------------------------------------------------
  // Nobody who is ready is passed over for long
  // -----------------------------------------------------------------

  /** Whether a domain lies strictly between two others, going up and round. */
  predicate Between(x: Domain, from: Domain, to: Domain) {
    if from < to then from < x < to else x > from || x < to
  }

  /** The domains that may still come before another one. */
  function Ahead(all: set<Domain>, from: Domain, to: Domain): set<Domain> {
    set x | x in all && Between(x, from, to)
  }

  /** A fair turn either goes to a ready domain, or comes closer to it. */
  lemma TurnCloser(ready: seq<Domain>, place: Domain, domain: Domain, wanted: Domain, all: set<Domain>)
    requires CyclicNext(ready, place, domain) && wanted in ready && domain != wanted && domain in all
    ensures Ahead(all, domain, wanted) < Ahead(all, place, wanted)
  {
    var i :| 0 <= i < |ready| && ready[i] == wanted;
    assert Between(domain, place, wanted) && !Between(domain, domain, wanted);
    assert domain in Ahead(all, place, wanted) && domain !in Ahead(all, domain, wanted);
    forall x | x in Ahead(all, domain, wanted) ensures x in Ahead(all, place, wanted) {}
  }

  /** A turn that passes a domain over: an economic one, or one that was fairly given to another though it was ready. */
  predicate PassesOver(turns: seq<Turn>, k: nat, wanted: Domain, all: set<Domain>)
    requires k < |turns|
  {
    turns[k].economic ||
    (turns[k].made == k && wanted in turns[k].ready && turns[k].domain in all && turns[k].domain != wanted)
  }

  /**
    Theorem: in every run, a domain that is ready whenever a fair turn is chosen is passed over in no more turns in a
    row than twice the number of domains that lie ahead of it, and one. No choice may be overtaken by other turns in
    between, and none is among the first 2^64.
  */
  lemma ReadyIsVisited(calls: seq<Call>, from: nat, to: nat, wanted: Domain, all: set<Domain>)
    requires forall i :: 0 <= i < |calls| ==> RowsProper(calls[i])
    requires from <= to <= |After(START, calls).turns|
    requires forall k :: from <= k < to ==> PassesOver(After(START, calls).turns, k, wanted, all)
    ensures to - from <= 2 * |Ahead(all, LastFair(After(START, calls).turns[..from]), wanted)| + 1
    ensures to <= SERIALS ==> forall k :: from <= k < to ==> After(START, calls).turns[k].made == k
  {
    hide After;
    hide Ahead;
    hide CyclicNext;
    hide LastFair;
    TurnsAlternate(calls);
    var turns := After(START, calls).turns;
    forall k | 0 <= k < |turns| ensures FairTurn(turns, k) && (k < SERIALS ==> turns[k].made == k) {}
    PassedOver(turns, from, to, wanted, all);
  }

  lemma {:induction false} PassedOver(turns: seq<Turn>, from: nat, to: nat, wanted: Domain, all: set<Domain>)
    requires from <= to <= |turns|
    requires forall k :: 0 <= k < |turns| ==> (turns[k].economic <==> k % 2 == 1)
    requires forall k :: 0 <= k < |turns| ==> FairTurn(turns, k)
    requires forall k :: from <= k < to ==> PassesOver(turns, k, wanted, all)
    ensures to - from <= 2 * |Ahead(all, LastFair(turns[..from]), wanted)| + 1
    decreases |turns| - from
  {
    hide CyclicNext;
    hide Ahead;
    hide LastFair;
    if to - from >= 2 {
      var k := if from % 2 == 0 then from else from + 1;
      assert FairTurn(turns, k) && PassesOver(turns, k, wanted, all);
      LastFairSteps(turns, from);
      TurnCloser(turns[k].ready, LastFair(turns[..k]), turns[k].domain, wanted, all);
      PassedOver(turns, from + 2, to, wanted, all);
      Smaller(Ahead(all, turns[k].domain, wanted), Ahead(all, LastFair(turns[..from]), wanted));
    }
  }

  /** One of two turns in a row is fair. */
  lemma LastFairSteps(turns: seq<Turn>, from: nat)
    requires from + 2 <= |turns| && forall k :: 0 <= k < |turns| ==> (turns[k].economic <==> k % 2 == 1)
    ensures var k := if from % 2 == 0 then from else from + 1;
            LastFair(turns[..k]) == LastFair(turns[..from]) && LastFair(turns[..from + 2]) == turns[k].domain
  {
    hide LastFair;
    assert turns[..from + 1] == turns[..from] + [turns[from]];
    assert turns[..from + 2] == turns[..from + 1] + [turns[from + 1]];
    LastFairMore(turns[..from], turns[from]);
    LastFairMore(turns[..from + 1], turns[from + 1]);
  }

  lemma Smaller(a: set<Domain>, b: set<Domain>)
    requires a < b
    ensures |a| < |b|
  {
    var x :| x in b && x !in a;
    Within(a, b - {x});
  }

  lemma {:induction false} Within(a: set<Domain>, b: set<Domain>)
    requires a <= b
    ensures |a| <= |b|
  {
    if a != {} {
      var x :| x in a;
      Within(a - {x}, b - {x});
    }
  }
}
