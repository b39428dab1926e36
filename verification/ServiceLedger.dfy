/**
  The books of the service over whole runs: a count is exactly what was imported and recorded, what the controller reads
  of it is that count, and whatever is given up for want of room was used longest ago.
*/
module ServiceLedger {
  import opened Outcomes
  import opened BudgetCutoff
  import opened ServiceState
  import opened ServiceSteps
  import opened ServiceActions
  import opened ServiceShape
  import opened ServiceGraph
  import opened ServiceBudgets
  import opened ServiceRuns

  // -----------------------------------------------------------------
  // Counts
  // -----------------------------------------------------------------

  /** An action that records the capture of a started job of a bounty. */
  predicate CountsOne(s: Service, a: Action, bounty: Bounty) {
    a.Record? && a.id in s.table && s.table[a.id].captured && s.table[a.id].started && s.table[a.id].bounty == bounty
  }

  predicate Submits(a: Action, bounty: Bounty) {
    a.SubmitAttempt? && a.bounty == bounty
  }

  /** What a step does to the count of a budget. */
  lemma CountStep(s: Service, a: Action, bounty: Bounty)
    requires Possible(s, a) && bounty in Apply(s, a).budgets
    ensures var c := Apply(s, a).budgets[bounty].successes;
            if Submits(a, bounty) then
              c == if bounty in s.budgets && s.budgets[bounty].successes > a.imported
                   then s.budgets[bounty].successes else a.imported
            else
              bounty in s.budgets &&
              c == if CountsOne(s, a, bounty) && s.budgets[bounty].successes < 0xFFFF_FFFF_FFFF_FFFF
                   then s.budgets[bounty].successes + 1 else s.budgets[bounty].successes
  {
    hide Apply;
    hide Possible;
    hide StopCount;
    if a.SubmitAttempt? { ImportCount(s, a.id, a.domain, a.bounty, a.target, a.imported, a.victim, a.spawn); }
    else if a.Record? { RecordCount(s, a.id); }
    else { CountsStay(s, a); }
  }

  /** How many captures of a bounty are recorded in a stretch of a run. */
  function Tally(states: seq<Service>, actions: seq<Action>, i: nat, k: nat, bounty: Bounty): nat
    requires i <= k <= |actions| && |states| == |actions| + 1
    decreases k
  {
    if i == k then 0
    else Tally(states, actions, i, k - 1, bounty) + if CountsOne(states[k - 1], actions[k - 1], bounty) then 1 else 0
  }

  /**
    Theorem: while a budget stays resident and no attempt of it is submitted, it counts exactly the recorded captures of
    started jobs, until the counter is full.
  */
  lemma {:induction false} CountExact(states: seq<Service>, actions: seq<Action>, config: Config, start: real, i: nat,
                                      k: nat, bounty: Bounty)
    requires Run(states, actions, config, start) && i <= k < |states| && |states| == |actions| + 1
    requires bounty in states[i].budgets && bounty in states[k].budgets
    requires forall m :: i <= m < k ==> !Submits(actions[m], bounty)
    ensures var sum := states[i].budgets[bounty].successes + Tally(states, actions, i, k, bounty);
            states[k].budgets[bounty].successes ==
            if sum < 0xFFFF_FFFF_FFFF_FFFF then sum else 0xFFFF_FFFF_FFFF_FFFF
    decreases k
  {
    hide Apply;
    hide Possible;
    hide Run;
    hide CountsOne;
    if i < k {
      StepOf(states, actions, config, start, k - 1);
      CountStep(states[k - 1], actions[k - 1], bounty);
      CountExact(states, actions, config, start, i, k - 1, bounty);
    }
  }

  /**
    Theorem: an attempt brings its budget to at least the count that the controller knows, and to no more than it takes.
  */
  lemma ImportExact(states: seq<Service>, actions: seq<Action>, config: Config, start: real, i: nat)
    requires Run(states, actions, config, start) && i < |actions| && actions[i].SubmitAttempt?
    ensures |states| == |actions| + 1 && actions[i].bounty in states[i + 1].budgets
    ensures var b, c := actions[i].bounty, states[i + 1].budgets[actions[i].bounty].successes;
            c >= actions[i].imported && (b in states[i].budgets ==> c >= states[i].budgets[b].successes) &&
            (c == actions[i].imported || (b in states[i].budgets && c == states[i].budgets[b].successes))
  {
    hide Apply;
    StepOf(states, actions, config, start, i);
    Submitted(states[i], actions[i]);
    hide Possible;
    CountStep(states[i], actions[i], actions[i].bounty);
  }

  lemma Submitted(s: Service, a: Action)
    requires Possible(s, a) && a.SubmitAttempt?
    ensures a.bounty in Apply(s, a).budgets
    ensures Apply(s, a).touched == s.touched + 1 && Apply(s, a).budgets[a.bounty].touched == s.touched + 1
    ensures forall b :: b in Apply(s, a).budgets && b != a.bounty ==>
              b in s.budgets && Apply(s, a).budgets[b] == s.budgets[b]
    ensures a.victim.Some? ==>
              a.victim.value in s.budgets && s.budgets[a.victim.value].users == 0 && a.bounty !in s.budgets &&
              |s.budgets| >= 1024 &&
              forall b :: b in s.budgets && s.budgets[b].users == 0 ==>
                s.budgets[a.victim.value].touched <= s.budgets[b].touched
  {
    hide Apply;
    hide Enabled;
    hide StopCount;
    hide Submit;
    OnSubmitAttempt(s, a.id, a.domain, a.bounty, a.target, a.imported, a.victim, a.spawn);
    SubmitBooks(s, a);
  }

  lemma SubmitBooks(s: Service, a: Action)
    requires a.SubmitAttempt?
    ensures var t := DoSubmitAttempt(s, a.id, a.domain, a.bounty, a.target, a.imported, a.victim, a.spawn);
            t.budgets == Import(s, a.bounty, a.target, a.imported, a.victim).budgets && t.touched == s.touched + 1
  {
    hide StopCount;
    hide Notify;
    hide NoLiveAttempt;
  }

  // -----------------------------------------------------------------
  // What is given up
  // -----------------------------------------------------------------

  /** An action that uses a name: it is resolved, answered from what is known, or an address of it is chosen. */
  predicate Uses(s: Service, a: Action, d: Domain) {
    MovesNames(a) && a.id in s.table && s.table[a.id].domain == d &&
    (a.Select? ==> a.choice.Some? && !s.table[a.id].Cancelled())
  }

  /** What a step does to the times of use of a budget. */
  lemma BudgetTouched(s: Service, a: Action, bounty: Bounty)
    requires Possible(s, a) && bounty in Apply(s, a).budgets
    ensures s.touched <= Apply(s, a).touched && (a.SubmitAttempt? ==> s.touched < Apply(s, a).touched)
    ensures Apply(s, a).budgets[bounty].touched ==
            if Submits(a, bounty) then Apply(s, a).touched
            else if bounty in s.budgets then s.budgets[bounty].touched else 0
  {
    hide Apply;
    hide Possible;
    hide StopCount;
    TouchedOnward(s, a);
    if a.SubmitAttempt? { Submitted(s, a); }
    else if a.Record? { RecordCount(s, a.id); }
    else { CountsStay(s, a); }
  }

  lemma TouchedOnward(s: Service, a: Action)
    requires Possible(s, a)
    ensures s.touched <= Apply(s, a).touched
  {
    hide Apply;
    hide Possible;
    if a.SubmitAttempt? { Submitted(s, a); }
    else if MovesNames(a) { NamesUsed(s, a); }
    else { StaysWithin(s, a); }
  }

  /** What the use of a name does to the times of use. */
  lemma NamesUsed(s: Service, a: Action)
    requires Possible(s, a) && MovesNames(a)
    ensures a.id in s.table && s.touched <= Apply(s, a).touched
    ensures forall d :: d in Apply(s, a).net.dns ==>
              if Uses(s, a, d) then Apply(s, a).net.dns[d].touched == Apply(s, a).touched == s.touched + 1
              else d in s.net.dns && Apply(s, a).net.dns[d] == s.net.dns[d]
  {
    hide Apply;
    hide Enabled;
    hide CanStoreDns;
    if a.ResolveCached? { OnResolveCached(s, a.id); }
    else if a.ResolveFresh? { OnResolveFresh(s, a.id, a.endpoints, a.oldest); FreshUsed(s, a); }
    else { OnSelect(s, a.id, a.choice); }
  }

  lemma FreshUsed(s: Service, a: Action)
    requires a.ResolveFresh? && a.id in s.table
    ensures var t := DoResolveFresh(s, a.id, a.endpoints, a.oldest);
            t.touched == s.touched + 1 &&
            forall d :: d in t.net.dns ==>
              if d == s.table[a.id].domain then t.net.dns[d].touched == s.touched + 1
              else d in s.net.dns && t.net.dns[d] == s.net.dns[d]
  {
  }

  lemma NamesStay(s: Service, a: Action)
    requires Possible(s, a) && a.EndCapture?
    ensures Apply(s, a).net.dns == s.net.dns && Apply(s, a).touched == s.touched
  {
    hide VictimsChosen;
  }

  /** What a step does to the times of use of a name. */
  lemma NameTouched(s: Service, a: Action, d: Domain)
    requires Possible(s, a) && d in Apply(s, a).net.dns
    ensures s.touched <= Apply(s, a).touched && (Uses(s, a, d) ==> s.touched < Apply(s, a).touched)
    ensures if Uses(s, a, d) then Apply(s, a).net.dns[d].touched == Apply(s, a).touched
            else d in s.net.dns && Apply(s, a).net.dns[d].touched == s.net.dns[d].touched
  {
    hide Apply;
    hide Possible;
    TouchedOnward(s, a);
    if MovesNames(a) { NamesUsed(s, a); }
    else if a.EndCapture? { NamesStay(s, a); }
    else { StaysWithin(s, a); }
  }

  /** The time of use never goes back. */
  lemma {:induction false} TouchedGrows(states: seq<Service>, actions: seq<Action>, config: Config, start: real, i: nat,
                                        k: nat)
    requires Run(states, actions, config, start) && i <= k < |states|
    ensures states[i].touched <= states[k].touched
    decreases k
  {
    hide Apply;
    hide Possible;
    LengthOf(states, actions, config, start);
    if i < k {
      TouchedGrows(states, actions, config, start, i, k - 1);
      StepOf(states, actions, config, start, k - 1);
      TouchedOnward(states[k - 1], actions[k - 1]);
    }
  }

  /** The last attempt of a budget that is submitted before a point of a run; it stays resident since. */
  predicate LastSubmit(states: seq<Service>, actions: seq<Action>, i: nat, k: nat, bounty: Bounty)
    requires |states| == |actions| + 1 && k < |actions|
  {
    i < k && Submits(actions[i], bounty) && forall m :: i < m < k ==> !Submits(actions[m], bounty)
  }

  lemma {:induction false} BudgetUsed(states: seq<Service>, actions: seq<Action>, config: Config, start: real, i: nat,
                                      k: nat, bounty: Bounty)
    requires Run(states, actions, config, start) && i < k < |states| && i < |actions| && bounty in states[k].budgets
    requires Submits(actions[i], bounty) && forall m :: i < m < k ==> !Submits(actions[m], bounty)
    ensures states[k].budgets[bounty].touched == states[i + 1].touched && states[i].touched < states[i + 1].touched
    decreases k
  {
    hide Apply;
    hide Possible;
    hide Run;
    LengthOf(states, actions, config, start);
    StepOf(states, actions, config, start, k - 1);
    BudgetTouched(states[k - 1], actions[k - 1], bounty);
    if i < k - 1 {
      CountStep(states[k - 1], actions[k - 1], bounty);
      BudgetUsed(states, actions, config, start, i, k - 1, bounty);
    }
  }

  /**
    Theorem: a budget is given up only if 1024 are resident and no attempt of it is live, and of all such budgets it is
    the one whose last attempt was submitted longest ago.
  */
  lemma OldestBudgetGoes(states: seq<Service>, actions: seq<Action>, config: Config, start: real, i: nat, j: nat,
                         k: nat, victim: Bounty, other: Bounty)
    requires Run(states, actions, config, start) && |states| == |actions| + 1 && k < |actions| && victim != other
    requires actions[k].SubmitAttempt? && actions[k].victim == Some(victim)
    requires other in states[k].budgets && states[k].budgets[other].users == 0
    requires LastSubmit(states, actions, i, k, victim) && LastSubmit(states, actions, j, k, other)
    ensures |states[k].budgets| >= 1024 && victim in states[k].budgets && states[k].budgets[victim].users == 0 && i < j
  {
    hide Apply;
    hide Run;
    StepOf(states, actions, config, start, k);
    Submitted(states[k], actions[k]);
    hide Possible;
    BudgetUsed(states, actions, config, start, i, k, victim);
    BudgetUsed(states, actions, config, start, j, k, other);
    if j < i { TouchedGrows(states, actions, config, start, j + 1, i); }
  }

  lemma {:induction false} NameUsed(states: seq<Service>, actions: seq<Action>, config: Config, start: real, i: nat,
                                    k: nat, d: Domain)
    requires Run(states, actions, config, start) && i < k < |states| && i < |actions| && d in states[k].net.dns
    requires Uses(states[i], actions[i], d) && |states| == |actions| + 1
    requires forall m :: i < m < k ==> !Uses(states[m], actions[m], d)
    ensures states[k].net.dns[d].touched == states[i + 1].touched && states[i].touched < states[i + 1].touched
    decreases k
  {
    hide Apply;
    hide Possible;
    hide Run;
    hide Uses;
    StepOf(states, actions, config, start, k - 1);
    NameTouched(states[k - 1], actions[k - 1], d);
    if i < k - 1 { NameUsed(states, actions, config, start, i, k - 1, d); }
  }

  lemma NameGivenUp(s: Service, a: Action)
    requires Possible(s, a) && a.ResolveFresh? && a.oldest.Some?
    ensures a.id in s.table
    ensures var m := StoreDns(s, s.table[a.id].domain, a.endpoints); |m| > 4096 && OldestDns(m, a.oldest.value)
  {
    hide Apply;
    hide StoreDns;
  }

  lemma OneMoreName(m: map<Domain, DnsEntry>, d: Domain, entry: DnsEntry)
    ensures |m[d := entry]| <= |m| + 1
  {
    assert m[d := entry].Keys == m.Keys + {d};
    assert |m[d := entry].Keys| == |m[d := entry]| && |m.Keys| == |m|;
  }

  /**
    Theorem: a name is given up only if 4096 are known, and of all others than the one just resolved it is the one that
    was used longest ago.
  */
  lemma OldestNameGoes(states: seq<Service>, actions: seq<Action>, config: Config, start: real, i: nat, j: nat,
                       k: nat, victim: Domain, other: Domain)
    requires Run(states, actions, config, start) && |states| == |actions| + 1 && i < k && j < k < |actions|
    requires actions[k].ResolveFresh? && actions[k].oldest == Some(victim) && actions[k].id in states[k].table
    requires victim != other && other in states[k].net.dns && other != states[k].table[actions[k].id].domain
    requires Uses(states[i], actions[i], victim) && forall m :: i < m < k ==> !Uses(states[m], actions[m], victim)
    requires Uses(states[j], actions[j], other) && forall m :: j < m < k ==> !Uses(states[m], actions[m], other)
    ensures |states[k].net.dns| >= 4096 && victim in states[k].net.dns &&
            victim != states[k].table[actions[k].id].domain && i < j
  {
    hide Apply;
    hide Run;
    hide Uses;
    var s, a := states[k], actions[k];
    StepOf(states, actions, config, start, k);
    NameGivenUp(s, a);
    hide Possible;
    OneMoreName(s.net.dns, s.table[a.id].domain,
                DnsEntry(a.endpoints, s.clock.now + if a.endpoints == [] then 2.0 else 60.0, s.touched + 1));
    NameUsed(states, actions, config, start, j, k, other);
    TouchedGrows(states, actions, config, start, j + 1, k);
    var m := StoreDns(s, s.table[a.id].domain, a.endpoints);
    assert m[other] == s.net.dns[other];
    assert victim in s.net.dns && m[victim] == s.net.dns[victim];
    NameUsed(states, actions, config, start, i, k, victim);
    if j < i { TouchedGrows(states, actions, config, start, j + 1, i); }
    assert i != j by { if i == j { UsesOne(states[i], actions[i], victim, other); } }
  }

  lemma UsesOne(s: Service, a: Action, d: Domain, e: Domain)
    requires Uses(s, a, d) && Uses(s, a, e)
    ensures d == e
  {
  }

  // -----------------------------------------------------------------
  // When an attempt is accepted
  // -----------------------------------------------------------------

  /** A budget can be used: it is known with this target, or there is room for it, or some other one is not in use. */
  ghost predicate Usable(s: Service, bounty: Bounty, target: nat) {
    if bounty in s.budgets then s.budgets[bounty].target == target
    else |s.budgets| < 1024 || exists b :: b in s.budgets && s.budgets[b].users == 0
  }

  /** Of some budgets that are not in use one was used first. */
  lemma {:induction false} SomeOldest(s: Service, unused: set<Bounty>) returns (oldest: Bounty)
    requires unused != {} && forall b :: b in unused ==> b in s.budgets
    ensures oldest in unused && forall b :: b in unused ==> s.budgets[oldest].touched <= s.budgets[b].touched
    decreases |unused|
  {
    var b :| b in unused;
    if unused == {b} {
      oldest := b;
    } else {
      assert unused - {b} != {} by { assert unused == {b} + (unused - {b}); }
      oldest := SomeOldest(s, unused - {b});
      if s.budgets[b].touched < s.budgets[oldest].touched { oldest := b; }
    }
  }

  /**
    Theorem: an attempt can be submitted exactly if the service is open, its id is new, there is room for it, and its
    budget can be used.
  */
  lemma AcceptsExactly(s: Service, id: JobId, bounty: Bounty, target: nat)
    requires 1 <= id
    ensures CanSubmit(s, id) && (exists v :: CanUseBudget(s, bounty, target, v)) <==>
            !s.end.closed && s.lastId < id && |s.live| < s.config.pendingLimit && Usable(s, bounty, target)
  {
    if Usable(s, bounty, target) {
      if bounty in s.budgets || |s.budgets| < 1024 {
        assert CanUseBudget(s, bounty, target, None);
      } else {
        var unused := set b | b in s.budgets && s.budgets[b].users == 0;
        var b :| b in s.budgets && s.budgets[b].users == 0;
        assert b in unused;
        var oldest := SomeOldest(s, unused);
        assert CanUseBudget(s, bounty, target, Some(oldest));
      }
    } else {
      forall v ensures !CanUseBudget(s, bounty, target, v) {}
    }
  }
}
