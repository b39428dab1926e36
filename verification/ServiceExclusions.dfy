/**
  Addresses over whole runs: an address that could not be reached from here is barred for a minute,
  and no longer; and an attempt uses an address that its name was resolved to less than a minute ago.
*/
module ServiceExclusions {
  import opened Outcomes
  import opened ServiceState
  import opened ServiceSteps
  import opened ServiceActions
  import opened ServiceShape
  import opened ServiceRecords
  import opened ServiceAdmission
  import opened ServicePermits
  import opened ServiceProgress
  import opened ServiceRuns

  // -----------------------------------------------------------------
  // Exclusions
  // -----------------------------------------------------------------

  /** An action that finds an address, or the family of an address, unusable from here. */
  predicate Excludes(s: Service, a: Action, e: Endpoint, family: bool) {
    a.EndCapture? && a.unreachable == Some(family) && a.id in s.table && s.table[a.id].endpoint.Some? &&
    if family then s.table[a.id].endpoint.value.family == e.family else s.table[a.id].endpoint.value == e
  }

  /** An exclusion for which a full table gives up the entry of this address, or of its family. */
  predicate GivesUp(a: Action, e: Endpoint, family: bool) {
    a.EndCapture? && a.unreachable == Some(family) &&
    if family then a.familyVictim == Some(e.family) else a.routeVictim == Some(e)
  }

  /** When an address is reachable again, as far as is known. */
  function Until(s: Service, e: Endpoint, family: bool): Option<real> {
    if family then if e.family in s.net.families then Some(s.net.families[e.family]) else None
    else if e in s.net.routes then Some(s.net.routes[e]) else None
  }

  /** Choosing an address and answering from what is known touch when a name was used, and nothing else of it. */
  lemma NamesTouched(s: Service, a: Action)
    requires Possible(s, a) && (a.ResolveCached? || a.Select?)
    ensures var t := Apply(s, a);
            t.net.routes == s.net.routes && t.net.families == s.net.families && t.net.dns.Keys == s.net.dns.Keys &&
            forall d :: d in s.net.dns ==> t.net.dns[d] == s.net.dns[d].(touched := t.net.dns[d].touched)
  {
    hide Apply;
    hide Enabled;
    if a.ResolveCached? { OnResolveCached(s, a.id); } else { OnSelect(s, a.id, a.choice); }
  }

  lemma NamesResolved(s: Service, a: Action)
    requires Possible(s, a) && a.ResolveFresh?
    ensures a.id in s.table && Apply(s, a).net == DoResolveFresh(s, a.id, a.endpoints, a.oldest).net
    ensures Apply(s, a).net.routes == s.net.routes && Apply(s, a).net.families == s.net.families
  {
    hide Apply;
    hide Enabled;
    hide CanStoreDns;
    OnResolveFresh(s, a.id, a.endpoints, a.oldest);
  }

  /** The table is full, and this exclusion is one that ends first. */
  predicate Crowded(s: Service, e: Endpoint, family: bool) {
    if family then
      |s.net.families| >= 2 && e.family in s.net.families &&
      forall f :: f in s.net.families ==> s.net.families[e.family] <= s.net.families[f]
    else
      |s.net.routes| >= 4096 && e in s.net.routes && forall f :: f in s.net.routes ==>
        s.net.routes[e] <= s.net.routes[f]
  }

  /** Only the end of a capture touches exclusions. */
  lemma ExclusionsStay(s: Service, a: Action)
    requires Possible(s, a) && !a.EndCapture?
    ensures Apply(s, a).net.routes == s.net.routes && Apply(s, a).net.families == s.net.families
  {
    hide Apply;
    hide Possible;
    hide DoResolveFresh;
    if a.ResolveCached? || a.Select? { NamesTouched(s, a); }
    else if a.ResolveFresh? { NamesResolved(s, a); }
    else { StaysWithin(s, a); }
  }

  lemma ReachOnward(s: Service, a: Action)
    requires Possible(s, a)
    ensures s.clock.reach <= Apply(s, a).clock.reach
  {
    hide Apply;
    hide Enabled;
    StaysWithin(s, a);
    if a.Tick? { OnTick(s, a.now, a.reach); }
  }

  /** What a step does to the exclusion of an address. */
  lemma UntilStep(s: Service, a: Action, e: Endpoint, family: bool)
    requires Possible(s, a)
    ensures Until(Apply(s, a), e, family) ==
            if Excludes(s, a, e, family) then Some(s.clock.reach + 60.0)
            else if GivesUp(a, e, family) then None else Until(s, e, family)
    ensures GivesUp(a, e, family) && Until(s, e, family).Some? ==> Crowded(s, e, family)
    ensures s.clock.reach <= Apply(s, a).clock.reach
  {
    hide Apply;
    hide Enabled;
    ReachOnward(s, a);
    if a.EndCapture? {
      CaptureEnds(s, a);
      EndCaptureTimes(s, a.id, a.captured, a.cancel, a.unreachable, a.routeVictim, a.familyVictim, e, family);
    } else {
      ExclusionsStay(s, a);
    }
  }

  lemma CaptureEnds(s: Service, a: Action)
    requires Possible(s, a) && a.EndCapture?
    ensures CanEndCapture(s, a.id, a.captured, a.cancel, a.unreachable, a.routeVictim, a.familyVictim)
    ensures Apply(s, a) == DoEndCapture(s, a.id, a.captured, a.cancel, a.unreachable, a.routeVictim, a.familyVictim)
  {
  }

  lemma EndCaptureTimes(s: Service, id: JobId, captured: bool, cancel: bool, unreachable: Option<bool>,
                        victim: Option<Endpoint>, familyVictim: Option<int>, e: Endpoint, family: bool)
    requires CanEndCapture(s, id, captured, cancel, unreachable, victim, familyVictim)
    ensures var a := EndCapture(id, captured, cancel, unreachable, victim, familyVictim);
            Until(DoEndCapture(s, id, captured, cancel, unreachable, victim, familyVictim), e, family) ==
            (if Excludes(s, a, e, family) then Some(s.clock.reach + 60.0)
             else if GivesUp(a, e, family) then None else Until(s, e, family)) &&
            (GivesUp(a, e, family) && Until(s, e, family).Some? ==> Crowded(s, e, family))
  {
  }

  /**
    An exclusion lasts a minute, unless a full table gives it up for a newer one: until then the address is barred.
  */
  lemma {:induction false} StaysBarred(states: seq<Service>, actions: seq<Action>, config: Config, start: real, i: nat,
                                       k: nat, e: Endpoint, family: bool)
    requires Run(states, actions, config, start) && i < k < |states| && i < |actions|
    requires Excludes(states[i], actions[i], e, family)
    requires forall m :: i < m < k ==> !GivesUp(actions[m], e, family)
    ensures Until(states[k], e, family).Some? && Until(states[k], e, family).value >= states[i].clock.reach + 60.0
    ensures states[i].clock.reach <= states[k].clock.reach
    decreases k
  {
    hide Apply;
    hide Possible;
    hide Until;
    hide Excludes;
    hide GivesUp;
    LengthOf(states, actions, config, start);
    StepOf(states, actions, config, start, k - 1);
    UntilStep(states[k - 1], actions[k - 1], e, family);
    if i < k - 1 {
      StaysBarred(states, actions, config, start, i, k - 1, e, family);
    }
  }

  /**
    Theorem: for a minute after an exclusion no permit goes to a job of that address, or of that family, unless the
    exclusion has been given up for a newer one.
  */
  lemma ExclusionBars(states: seq<Service>, actions: seq<Action>, config: Config, start: real, i: nat, k: nat,
                      e: Endpoint, family: bool)
    requires Run(states, actions, config, start) && i < k < |actions|
    requires Excludes(states[i], actions[i], e, family)
    requires forall m :: i < m < k ==> !GivesUp(actions[m], e, family)
    requires k + 1 < |states| && states[k].clock.reach < states[i].clock.reach + 60.0
    ensures !Reachable(states[k], e)
    ensures states[k + 1].log.permits != states[k].log.permits ==>
              states[k].gate != [] && states[k].gate[0] in states[k].table &&
              states[k].table[states[k].gate[0]].endpoint != Some(e)
  {
    hide Apply;
    hide Possible;
    hide Sound;
    hide Shape;
    hide Records;
    hide AdmissionOk;
    hide Paced;
    hide Excludes;
    hide GivesUp;
    StaysBarred(states, actions, config, start, i, k, e, family);
    StepOf(states, actions, config, start, k);
    RunSound(states, actions, config, start, k);
    SoundParts(states[k]);
    if states[k + 1].log.permits != states[k].log.permits { GrantIsSafe(states[k], actions[k]); }
  }

  /**
    Theorem: an exclusion is given up only by a full table of 4096 addresses, or of two families, when it ends first.
  */
  lemma GivenUpWhenCrowded(states: seq<Service>, actions: seq<Action>, config: Config, start: real, k: nat,
                           e: Endpoint, family: bool)
    requires Run(states, actions, config, start) && k < |actions| && GivesUp(actions[k], e, family)
    requires |states| == |actions| + 1 && Until(states[k], e, family).Some?
    ensures Crowded(states[k], e, family)
  {
    hide Apply;
    hide Possible;
    hide Crowded;
    hide GivesUp;
    hide Until;
    StepOf(states, actions, config, start, k);
    UntilStep(states[k], actions[k], e, family);
  }

  /** An exclusion that is in the tables was made less than a minute before its end. */
  lemma {:induction false} BarredSince(states: seq<Service>, actions: seq<Action>, config: Config, start: real, k: nat,
                                       e: Endpoint, family: bool) returns (i: nat)
    requires Run(states, actions, config, start) && k < |states| && Until(states[k], e, family).Some?
    ensures |states| == |actions| + 1 && i < k && Excludes(states[i], actions[i], e, family) &&
            Until(states[k], e, family) == Some(states[i].clock.reach + 60.0)
    decreases k
  {
    hide Apply;
    hide Possible;
    hide Excludes;
    hide GivesUp;
    LengthOf(states, actions, config, start);
    if k == 0 {
      assert false;
    } else {
      hide Until;
      StepOf(states, actions, config, start, k - 1);
      UntilStep(states[k - 1], actions[k - 1], e, family);
      if Excludes(states[k - 1], actions[k - 1], e, family) {
        i := k - 1;
      } else {
        i := BarredSince(states, actions, config, start, k - 1, e, family);
      }
    }
  }

  /** Theorem: an address is barred only if it, or its family, was excluded less than a minute ago. */
  lemma BarredForAMinute(states: seq<Service>, actions: seq<Action>, config: Config, start: real, k: nat, e: Endpoint)
    returns (i: nat, family: bool)
    requires Run(states, actions, config, start) && k < |states| && !Reachable(states[k], e)
    ensures |states| == |actions| + 1 && i < k && Excludes(states[i], actions[i], e, family) &&
            states[k].clock.reach < states[i].clock.reach + 60.0
  {
    hide Run;
    hide Excludes;
    family := !(e in states[k].net.routes && states[k].net.routes[e] > states[k].clock.reach);
    i := BarredSince(states, actions, config, start, k, e, family);
  }

  // -----------------------------------------------------------------
  // Names
  // -----------------------------------------------------------------

  /** An action that resolves a name afresh. */
  predicate Resolves(s: Service, a: Action, d: Domain) {
    a.ResolveFresh? && a.id in s.table && s.table[a.id].domain == d
  }

  /** What a step does to a name: it keeps its addresses and its end unless it is resolved afresh or given up. */
  lemma NameStep(s: Service, a: Action, d: Domain)
    requires Possible(s, a) && d in Apply(s, a).net.dns
    ensures Resolves(s, a, d) ==>
              Apply(s, a).net.dns[d].endpoints == a.endpoints &&
              Apply(s, a).net.dns[d].expires == s.clock.now + (if a.endpoints == [] then 2.0 else 60.0)
    ensures !Resolves(s, a, d) ==>
              d in s.net.dns && Apply(s, a).net.dns[d].endpoints == s.net.dns[d].endpoints &&
              Apply(s, a).net.dns[d].expires == s.net.dns[d].expires
  {
    hide Apply;
    hide Possible;
    hide DoResolveFresh;
    if a.ResolveCached? || a.Select? { NamesTouched(s, a); }
    else if a.ResolveFresh? { NamesResolved(s, a); FreshNames(s, a.id, a.endpoints, a.oldest, d); }
    else if a.EndCapture? { NamesStay(s, a); }
    else { StaysWithin(s, a); }
  }

  lemma FreshNames(s: Service, id: JobId, endpoints: seq<Endpoint>, oldest: Option<Domain>, d: Domain)
    requires id in s.table && d in DoResolveFresh(s, id, endpoints, oldest).net.dns
    ensures var entry := DoResolveFresh(s, id, endpoints, oldest).net.dns[d];
            if d == s.table[id].domain then
              entry.endpoints == endpoints && entry.expires == s.clock.now + (if endpoints == [] then 2.0 else 60.0)
            else d in s.net.dns && entry == s.net.dns[d]
  {
  }

  lemma NamesStay(s: Service, a: Action)
    requires Possible(s, a) && a.EndCapture?
    ensures Apply(s, a).net.dns == s.net.dns
  {
    hide VictimsChosen;
  }

  /** A known name was resolved, and ends a minute after that, or two seconds if it has no address. */
  lemma {:induction false} KnownSince(states: seq<Service>, actions: seq<Action>, config: Config, start: real, k: nat,
                                      d: Domain) returns (i: nat)
    requires Run(states, actions, config, start) && k < |states| && d in states[k].net.dns
    ensures |states| == |actions| + 1 && i < k && Resolves(states[i], actions[i], d)
    ensures states[k].net.dns[d].endpoints == actions[i].endpoints &&
            states[k].net.dns[d].expires == states[i].clock.now + (if actions[i].endpoints == [] then 2.0 else 60.0)
    decreases k
  {
    hide Apply;
    hide Possible;
    hide Resolves;
    LengthOf(states, actions, config, start);
    if k == 0 {
      assert false;
    } else {
      StepOf(states, actions, config, start, k - 1);
      NameStep(states[k - 1], actions[k - 1], d);
      if Resolves(states[k - 1], actions[k - 1], d) {
        i := k - 1;
        assert actions[i].ResolveFresh? by { FreshResolve(states[i], actions[i], d); }
      } else {
        i := KnownSince(states, actions, config, start, k - 1, d);
      }
    }
  }

  lemma FreshResolve(s: Service, a: Action, d: Domain)
    requires Resolves(s, a, d)
    ensures a.ResolveFresh?
  {
  }

  /**
    Theorem: an attempt that chooses an address gets one that its name was resolved to less than a minute ago, and that
    is not barred; it stays without one only if there is none, or it was cancelled.
  */
  lemma ChoosesFresh(states: seq<Service>, actions: seq<Action>, config: Config, start: real, k: nat) returns (i: nat)
    requires Run(states, actions, config, start) && k < |actions| && actions[k].Select?
    requires |states| == |actions| + 1 && actions[k].id in states[k].table
    requires actions[k].choice.Some?
    ensures i < k && Resolves(states[i], actions[i], states[k].table[actions[k].id].domain) &&
            actions[k].choice.value in actions[i].endpoints && states[k].clock.now < states[i].clock.now + 60.0
    ensures Reachable(states[k], actions[k].choice.value)
    ensures var id := actions[k].id;
            id in states[k + 1].table &&
            if states[k].table[id].cancelRequested || states[k].table[id].controlCancelled
            then states[k + 1].table[id].phase == Judging(true)
            else states[k + 1].table[id].phase.Selected? && states[k + 1].table[id].endpoint == actions[k].choice
  {
    hide Apply;
    hide Resolves;
    StepOf(states, actions, config, start, k);
    Chosen(states[k], actions[k]);
    hide Possible;
    i := KnownSince(states, actions, config, start, k, states[k].table[actions[k].id].domain);
    FreshResolve(states[i], actions[i], states[k].table[actions[k].id].domain);
  }

  lemma Chosen(s: Service, a: Action)
    requires Possible(s, a) && a.Select? && a.choice.Some?
    ensures a.id in s.table && s.table[a.id].domain in s.net.dns && Reachable(s, a.choice.value)
    ensures var entry := s.net.dns[s.table[a.id].domain];
            entry.expires > s.clock.now && a.choice.value in entry.endpoints
    ensures var j, t := s.table[a.id], Apply(s, a);
            a.id in t.table &&
            if j.cancelRequested || j.controlCancelled then t.table[a.id].phase == Judging(true)
            else t.table[a.id].phase.Selected? && t.table[a.id].endpoint == a.choice
  {
  }

  /**
    Theorem: an attempt stays without an address only if its name is not known, all are barred, or it was cancelled.
  */
  lemma NoChoice(s: Service, a: Action)
    requires Possible(s, a) && a.Select? && a.choice == None
    ensures a.id in s.table
    ensures var j := s.table[a.id];
            j.cancelRequested || j.controlCancelled || j.domain !in s.net.dns ||
            s.net.dns[j.domain].expires <= s.clock.now ||
            forall e :: e in s.net.dns[j.domain].endpoints ==> !Reachable(s, e)
  {
  }
}
