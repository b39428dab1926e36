/** The scheduler as the client runs it: fields that its methods change, against the steps. */
module SchedulerClass {
  import opened Outcomes
  import opened SchedulerSteps

  lemma Refused(s: Scheduler, id: SelectionId, time: real)
    ensures !Reservable(s, id, time) ==> Reserve(s, id, time) == s
  {
  }

  class ClaimScheduler {
    var names: seq<Domain>
    var groups: map<Domain, seq<seq<Entry>>>
    var probes: map<Policy, ProbeId>
    var heap: map<ProbeId, Probe>
    var order: seq<Policy>
    var nextProbe: nat
    var selections: map<SelectionId, Selection>
    var nextSelection: nat
    var pending: Option<SelectionId>
    var nextGlobal: real
    var economic: bool
    var domainAfter: Domain
    var serial: nat
    // The past, for the observer.
    var starts: seq<Start>
    var turns: seq<Turn>

    ghost function View(): Scheduler
      reads this
    {
      Scheduler(names, groups, probes, heap, order, nextProbe, selections, nextSelection, pending, nextGlobal, economic,
                domainAfter, serial, starts, turns)
    }

    constructor ()
      ensures View() == START
    {
      names, groups, probes, heap, order, nextProbe := [], map[], map[], map[], [], 0;
      selections, nextSelection, pending, nextGlobal, economic := map[], 0, None, 0.0, false;
      domainAfter, serial, starts, turns := 0, 0, [], [];
    }

    /** The oldest policy but the pending one loses its probe if there are too many. */
    method EvictOldest()
      modifies this`probes, this`order
      ensures View() == Evicted(old(View()))
    {
      if |order| < MAX_POLICIES { return; }
      var avoid := if pending.Some? &&
        pending.value in selections then Some(selections[pending.value].entry.policy) else None;
      var i := FirstOther(avoid);
      if i < |order| {
        probes := probes - {order[i]};
        order := Cut(order, i);
      }
    }

    method FirstOther(avoid: Option<Policy>) returns (i: nat)
      ensures i == OldestOther(order, avoid)
    {
      i := 0;
      while i < |order| && Some(order[i]) == avoid
        invariant 0 <= i <= |order| && OldestOther(order, avoid) == i + OldestOther(order[i..], avoid)
      {
        assert order[i..][0] == order[i] && order[i..][1..] == order[i + 1..];
        i := i + 1;
      }
    }

    /** The probe of a policy, which is created if need be. */
    method ProbeState(policy: Policy) returns (id: ProbeId)
      modifies this`probes, this`heap, this`order, this`nextProbe
      ensures View() == Probed(old(View()), policy) && policy in probes && id == probes[policy]
    {
      if policy in probes { return probes[policy]; }
      EvictOldest();
      id := nextProbe;
      probes := probes[policy := id];
      heap := heap[id := Probe(0, 0.0)];
      order := order + [policy];
      nextProbe := nextProbe + 1;
    }

    method AskProbe(policy: Policy, now: real) returns (ready: bool)
      modifies this`probes, this`heap, this`order, this`nextProbe
      ensures View() == Asked(old(View()), policy, now) && ready == ProbeReady(old(View()), policy, now)
    {
      if !(pending == None && now >= nextGlobal) { return false; }
      var id := ProbeState(policy);
      return now >= (if id in heap then heap[id].nextDue else 0.0);
    }

    /** The best ready leader of a domain. */
    method BestLeader(masks: seq<seq<Entry>>, now: real) returns (best: Option<Entry>)
      modifies this`probes, this`heap, this`order, this`nextProbe
      ensures Best(View(), best) == WeighAll(Best(old(View()), None), masks, now)
    {
      hide Weigh;
      best := None;
      var i := 0;
      while i < |masks|
        invariant 0 <= i <= |masks|
        invariant WeighAll(Best(View(), best), masks[i..], now) == WeighAll(Best(old(View()), None), masks, now)
      {
        assert masks[i..][0] == masks[i] && masks[i..][1..] == masks[i + 1..];
        if masks[i] != [] { best := Compare(best, masks[i][0], now); }
        i := i + 1;
      }
      assert masks[i..] == [];
    }

    method Compare(best: Option<Entry>, leader: Entry, now: real) returns (better: Option<Entry>)
      modifies this`probes, this`heap, this`order, this`nextProbe
      ensures Best(View(), better) == Weigh(Best(old(View()), best), leader, now)
    {
      hide ProbeReady;
      if leader.due > now { return best; }
      var ready := true;
      if leader.recovering { ready := AskProbe(leader.policy, now); }
      return if ready && Better(leader, best) then Some(leader) else best;
    }

    /** One domain of the walk. */
    method Enter(domain: Domain, now: real, prepared: bool, reward: Option<Entry>, first: Option<Entry>,
                 after: Option<Entry>, ready: seq<Domain>)
      returns (reward': Option<Entry>, first': Option<Entry>, after': Option<Entry>, ready': seq<Domain>)
      modifies this`probes, this`heap, this`order, this`nextProbe
      ensures Found(View(), reward', first', after', ready') ==
              Visit(Found(old(View()), reward, first, after, ready), domain, now, prepared)
    {
      hide WeighAll;
      reward', first', after', ready' := reward, first, after, ready;
      var best := BestLeader(if domain in groups then groups[domain] else [], now);
      if best.Some? && best.value.prepared == prepared {
        if first == None { first' := best; }
        if after == None && domain > domainAfter { after' := best; }
        if economic && Better(best.value, reward) { reward' := best; }
        ready' := ready + [domain];
      }
    }

    /** Walk over the domains. */
    method Walk(now: real, prepared: bool)
      returns (reward: Option<Entry>, first: Option<Entry>, after: Option<Entry>, ready: seq<Domain>)
      modifies this`probes, this`heap, this`order, this`nextProbe
      ensures Found(View(), reward, first, after, ready) ==
              VisitAll(Found(old(View()), None, None, None, []), names, now, prepared)
    {
      hide Visit;
      reward, first, after, ready := None, None, None, [];
      var i := 0;
      assert names[0..] == names;
      while i < |names|
        invariant 0 <= i <= |names|
        invariant VisitAll(Found(View(), reward, first, after, ready), names[i..], now, prepared) ==
                  VisitAll(Found(old(View()), None, None, None, []), names, now, prepared)
      {
        assert names[i..][0] == names[i] && names[i..][1..] == names[i + 1..];
        reward, first, after, ready := Enter(names[i], now, prepared, reward, first, after, ready);
        i := i + 1;
      }
      assert names[i..] == [];
    }

    /** Choose: the best entry by score on an economic turn, the next domain in order on a fair one. */
    method Next(now: real, prepared: bool) returns (id: Option<SelectionId>)
      modifies this`probes, this`heap, this`order, this`nextProbe, this`selections, this`nextSelection
      ensures View() == SchedulerSteps.Next(old(View()), now, prepared)
      ensures id == if nextSelection > old(nextSelection) then Some(old(nextSelection)) else None
    {
      hide VisitAll;
      hide Probed;
      var reward, first, after, ready := Walk(now, prepared);
      var selected := if economic then reward else if after.Some? then after else first;
      if selected == None { return None; }
      var probe: Option<ProbeId> := None;
      if selected.value.recovering {
        var state := ProbeState(selected.value.policy);
        probe := Some(state);
      }
      id := Some(nextSelection);
      var selection := Selection(selected.value, economic, serial, now, probe, false, false, ready, |turns|, 0.0);
      selections := selections[nextSelection := selection];
      nextSelection := nextSelection + 1;
    }

    /** Take up a choice, if it still stands. */
    method Reserve(id: SelectionId, time: real) returns (reserved: bool)
      requires id in selections
      modifies this`selections, this`domainAfter, this`economic, this`serial, this`pending, this`turns
      ensures View() == SchedulerSteps.Reserve(old(View()), id, time) && reserved == Reservable(old(View()), id, time)
    {
      hide SchedulerSteps.Reserve;
      Refused(View(), id, time);
      var selected := selections[id];
      if selected.reserved || selected.serial != serial { return false; }
      if selected.entry.recovering {
        var due := if selected.probe.Some? &&
          selected.probe.value in heap then heap[selected.probe.value].nextDue else 0.0;
        if !(pending == None && time >= nextGlobal && time >= due) { return false; }
      }
      TakeUp(id, time);
      return true;
    }

    /** A choice that stands is taken up, and the other kind of turn comes next. */
    method TakeUp(id: SelectionId, time: real)
      requires Reservable(View(), id, time)
      modifies this`selections, this`domainAfter, this`economic, this`serial, this`pending, this`turns
      ensures View() == SchedulerSteps.Reserve(old(View()), id, time)
    {
      hide GateOpen;
      hide DueOf;
      hide Wrapped;
      var selected := selections[id];
      selections := selections[id := selected.(reserved := true, reservedAt := time)];
      if !selected.economic { domainAfter := selected.entry.domain; }
      economic := !selected.economic;
      serial := Wrapped(serial + 1);
      if selected.entry.recovering { pending := Some(id); }
      turns := turns + [Turn(selected.economic, selected.entry.domain, selected.ready, selected.made)];
    }

    /** A choice has started. */
    method Acknowledge(id: SelectionId, now: real) returns (committed: bool)
      requires id in selections
      modifies this`selections, this`heap, this`nextGlobal, this`order, this`pending, this`starts
      ensures View() == SchedulerSteps.Acknowledge(old(View()), id, now) &&
              committed == Acknowledgeable(old(View()), id)
    {
      hide Others;
      var selected := selections[id];
      if !selected.reserved || selected.committed { return false; }
      selections := selections[id := selected.(committed := true)];
      if selected.entry.recovering && selected.probe.Some? && selected.probe.value in heap {
        Push(selected.entry.policy, selected.probe.value, now);
      }
      Release(id);
      return true;
    }

    /** A probe and the gate are pushed into the future. */
    method Push(policy: Policy, id: ProbeId, now: real)
      requires id in heap
      modifies this`heap, this`nextGlobal, this`order, this`starts
      ensures View() == Started(old(View()), policy, id, now)
    {
      hide Others;
      var number := if heap[id].starts + 1 < CALIBRATIONS then heap[id].starts + 1 else CALIBRATIONS;
      var due := now + if number < CALIBRATIONS then GATE else 60.0;
      heap := heap[id := Probe(number, MaxTime(heap[id].nextDue, due))];
      nextGlobal := MaxTime(nextGlobal, now + GATE);
      if policy in probes && probes[policy] == id { order := Others(order, policy) + [policy]; }
      starts := starts + [Start(now, id, number)];
    }

    method Release(id: SelectionId)
      modifies this`pending
      ensures View() == SchedulerSteps.Release(old(View()), id)
    {
      if pending == Some(id) { pending := None; }
    }

    /** Replace the rows; the recovering policies that are admitted get their probes. */
    method Rebuild(admitted: seq<Policy>, names': seq<Domain>, groups': map<Domain, seq<seq<Entry>>>)
      modifies this`names, this`groups, this`probes, this`heap, this`order, this`nextProbe
      ensures View() == SchedulerSteps.Rebuild(old(View()), admitted, names', groups')
    {
      hide Probed;
      var i := 0;
      assert admitted[0..] == admitted;
      while i < |admitted|
        invariant 0 <= i <= |admitted| && ProbedAll(View(), admitted[i..]) == ProbedAll(old(View()), admitted)
        invariant names == old(names) && groups == old(groups)
      {
        assert admitted[i..][0] == admitted[i] && admitted[i..][1..] == admitted[i + 1..];
        var id := ProbeState(admitted[i]);
        i := i + 1;
      }
      assert admitted[i..] == [];
      names, groups := names', groups';
    }

    method Clear()
      modifies this`names, this`groups
      ensures View() == SchedulerSteps.Clear(old(View()))
    {
      names, groups := [], map[];
    }
  }
}
