/** Probes: at most 256 policies are tracked, and starts keep their distance. */
module SchedulerProbes {
  import opened Outcomes
  import opened SchedulerSteps

  ghost predicate Distinct(order: seq<Policy>) {
    forall i, k :: 0 <= i < k < |order| ==> order[i] != order[k]
  }

  /** The policies in order are the ones that have a probe, each its own. */
  ghost predicate Tracked(order: seq<Policy>, probes: map<Policy, ProbeId>) {
    Distinct(order) && (forall p :: p in order <==> p in probes) &&
    forall p, q :: p in probes && q in probes && p != q ==> probes[p] != probes[q]
  }

  ghost predicate ProbesOk(s: Scheduler) {
    Tracked(s.order, s.probes) && |s.order| <= MAX_POLICIES &&
    (forall p :: p in s.probes ==> s.probes[p] in s.heap) && (forall id :: id in s.heap ==> id < s.nextProbe)
  }

  /** Nothing but the probes differs, and no probe object has changed. */
  ghost predicate Grown(s: Scheduler, t: Scheduler) {
    t == s.(probes := t.probes, heap := t.heap, order := t.order, nextProbe := t.nextProbe) &&
    s.nextProbe <= t.nextProbe &&
    (forall id :: id in s.heap ==> id in t.heap && t.heap[id] == s.heap[id]) &&
    forall id :: id in t.heap && id !in s.heap ==> id >= s.nextProbe && t.heap[id] == Probe(0, 0.0)
  }

  lemma GrownTrans(s: Scheduler, t: Scheduler, u: Scheduler)
    requires Grown(s, t) && Grown(t, u)
    ensures Grown(s, u)
  {
  }

  lemma CutTracked(order: seq<Policy>, probes: map<Policy, ProbeId>, i: nat)
    requires Tracked(order, probes) && i < |order|
    ensures Tracked(Cut(order, i), probes - {order[i]})
  {
    var rest, left := Cut(order, i), probes - {order[i]};
    forall p ensures p in rest <==> p in left {
      if p in rest {
        var k :| 0 <= k < |rest| && rest[k] == p;
        var m := if k < i then k else k + 1;
        assert p == order[m] && order[m] in order;
      }
      if p in left {
        var k :| 0 <= k < |order| && order[k] == p;
        assert rest[if k < i then k else k - 1] == p;
      }
    }
  }

  lemma MoreTracked(order: seq<Policy>, probes: map<Policy, ProbeId>, policy: Policy, id: ProbeId)
    requires Tracked(order, probes) && policy !in probes && forall p :: p in probes ==> probes[p] != id
    ensures Tracked(order + [policy], probes[policy := id])
  {
  }

  lemma EvictedOk(s: Scheduler)
    requires ProbesOk(s)
    ensures ProbesOk(Evicted(s)) && |Evicted(s).order| < MAX_POLICIES && Evicted(s).probes.Keys <= s.probes.Keys
    ensures Evicted(s) == s.(probes := Evicted(s).probes, order := Evicted(s).order)
  {
    hide Tracked;
    var oldest := OldestOther(s.order, PendingPolicy(s));
    if |s.order| >= MAX_POLICIES {
      assert oldest < |s.order| by {
        assert s.order[0] != s.order[1] by { TrackedDistinct(s.order, s.probes); }
      }
      CutTracked(s.order, s.probes, oldest);
    }
  }

  lemma TrackedDistinct(order: seq<Policy>, probes: map<Policy, ProbeId>)
    requires Tracked(order, probes)
    ensures Distinct(order)
  {
  }

  /** Looking up a probe keeps the bookkeeping of probes; the pending one is never evicted. */
  lemma ProbedOk(s: Scheduler, policy: Policy)
    requires ProbesOk(s)
    ensures ProbesOk(Probed(s, policy)) && Grown(s, Probed(s, policy))
    ensures forall p :: Some(p) == PendingPolicy(s) && p in s.probes ==>
              p in Probed(s, policy).probes && Probed(s, policy).probes[p] == s.probes[p]
  {
    hide Tracked;
    if policy !in s.probes {
      EvictedOk(s);
      var t := Evicted(s);
      assert forall p :: p in t.probes ==> t.probes[p] in t.heap;
      MoreTracked(t.order, t.probes, policy, t.nextProbe);
    }
  }

  /**
    Theorem: a policy that is looked up for the first time gets a probe that is due at once, at the end of the order; if
    256 are tracked already, the first of the order but the pending one loses its probe, and nobody else.
  */
  lemma LookupIs(s: Scheduler, policy: Policy)
    requires ProbesOk(s)
    ensures policy in s.probes ==> Probed(s, policy) == s
    ensures policy !in s.probes ==>
              var t := Probed(s, policy);
              policy in t.probes && t.probes[policy] !in s.heap && t.probes[policy] in t.heap &&
              t.heap[t.probes[policy]] == Probe(0, 0.0) &&
              if |s.order| < 256 then
                t.order == s.order + [policy] && forall p :: p in s.probes ==>
                  p in t.probes && t.probes[p] == s.probes[p]
              else
                exists k :: Loses(s, k) && t.order == s.order[..k] + s.order[k + 1..] + [policy] &&
                  forall p :: p in s.probes && p != s.order[k] ==> p in t.probes && t.probes[p] == s.probes[p]
  {
    if policy !in s.probes && |s.order| >= 256 {
      EvictedOk(s);
      var oldest := OldestOther(s.order, PendingPolicy(s));
      assert oldest < |s.order| by {
        assert s.order[0] != s.order[1] by { TrackedDistinct(s.order, s.probes); }
      }
      assert Loses(s, oldest);
    }
    hide Tracked;
  }

  /** The first of the order that is not the pending policy. */
  predicate Loses(s: Scheduler, k: int) {
    0 <= k < |s.order| && Some(s.order[k]) != PendingPolicy(s) &&
    forall i :: 0 <= i < k ==> Some(s.order[i]) == PendingPolicy(s)
  }

  /** Theorem: a start makes its policy the last of the order, and the others keep their places among themselves. */
  lemma {:induction false} StartRenews(s: Scheduler, policy: Policy, id: ProbeId, now: real, i: nat, k: nat)
    requires ProbesOk(s) && id in s.heap && policy in s.probes && s.probes[policy] == id
    requires i < k < |s.order| && s.order[i] != policy && s.order[k] != policy
    ensures var order := Started(s, policy, id, now).order;
            order != [] && order[|order| - 1] == policy &&
            exists m, n :: 0 <= m < n < |order| && order[m] == s.order[i] && order[n] == s.order[k]
  {
    var m, n := OthersPlaces(s.order, policy, i, k);
    var order := Started(s, policy, id, now).order;
    assert order[m] == s.order[i] && order[n] == s.order[k];
  }

  lemma {:induction false} OthersPlaces(order: seq<Policy>, policy: Policy, i: nat, k: nat) returns (m: nat, n: nat)
    requires i < k < |order| && order[i] != policy && order[k] != policy
    ensures m < n < |Others(order, policy)|
    ensures Others(order, policy)[m] == order[i] && Others(order, policy)[n] == order[k]
  {
    var head := if order[0] == policy then 0 else 1;
    if i > 0 {
      m, n := OthersPlaces(order[1..], policy, i - 1, k - 1);
      m, n := m + head, n + head;
    } else {
      m := 0;
      n := OthersPlace(order[1..], policy, k - 1);
      n := n + 1;
    }
  }

  lemma {:induction false} OthersPlace(order: seq<Policy>, policy: Policy, k: nat) returns (n: nat)
    requires k < |order| && order[k] != policy
    ensures n < |Others(order, policy)| && Others(order, policy)[n] == order[k]
  {
    if k == 0 {
      n := 0;
    } else {
      n := OthersPlace(order[1..], policy, k - 1);
      if order[0] != policy { n := n + 1; }
    }
  }

  lemma WeighOk(b: Best, leader: Entry, now: real)
    requires ProbesOk(b.s)
    ensures ProbesOk(Weigh(b, leader, now).s) && Grown(b.s, Weigh(b, leader, now).s)
  {
    hide ProbesOk;
    hide Probed;
    ProbedOk(b.s, leader.policy);
  }

  lemma {:induction false} WeighAllOk(b: Best, masks: seq<seq<Entry>>, now: real)
    requires ProbesOk(b.s)
    ensures ProbesOk(WeighAll(b, masks, now).s) && Grown(b.s, WeighAll(b, masks, now).s)
    decreases |masks|
  {
    hide ProbesOk;
    hide Grown;
    hide Weigh;
    GrownSelf(b.s);
    if masks != [] {
      var c := if masks[0] == [] then b else Weigh(b, masks[0][0], now);
      if masks[0] != [] { WeighOk(b, masks[0][0], now); }
      WeighAllOk(c, masks[1..], now);
      GrownTrans(b.s, c.s, WeighAll(c, masks[1..], now).s);
    }
  }

  lemma GrownSelf(s: Scheduler)
    ensures Grown(s, s)
  {
  }

  lemma VisitOk(f: Found, domain: Domain, now: real, prepared: bool)
    requires ProbesOk(f.s)
    ensures ProbesOk(Visit(f, domain, now, prepared).s) && Grown(f.s, Visit(f, domain, now, prepared).s)
  {
    hide ProbesOk;
    hide Grown;
    hide WeighAll;
    WeighAllOk(Best(f.s, None), if domain in f.s.groups then f.s.groups[domain] else [], now);
  }

  lemma {:induction false} VisitAllOk(f: Found, names: seq<Domain>, now: real, prepared: bool)
    requires ProbesOk(f.s)
    ensures ProbesOk(VisitAll(f, names, now, prepared).s) && Grown(f.s, VisitAll(f, names, now, prepared).s)
    decreases |names|
  {
    hide ProbesOk;
    hide Grown;
    hide Visit;
    GrownSelf(f.s);
    if names != [] {
      VisitOk(f, names[0], now, prepared);
      var g := Visit(f, names[0], now, prepared);
      VisitAllOk(g, names[1..], now, prepared);
      GrownTrans(f.s, g.s, VisitAll(g, names[1..], now, prepared).s);
    }
  }

  lemma {:induction false} ProbedAllOk(s: Scheduler, policies: seq<Policy>)
    requires ProbesOk(s)
    ensures ProbesOk(ProbedAll(s, policies)) && Grown(s, ProbedAll(s, policies))
    decreases |policies|
  {
    hide ProbesOk;
    hide Grown;
    hide Probed;
    GrownSelf(s);
    if policies != [] {
      ProbedOk(s, policies[0]);
      ProbedAllOk(Probed(s, policies[0]), policies[1..]);
      GrownTrans(s, Probed(s, policies[0]), ProbedAll(Probed(s, policies[0]), policies[1..]));
    }
  }

  /** The state in which a choice is made, before it is written down. */
  function Walked(s: Scheduler, now: real, prepared: bool): Found {
    VisitAll(Found(s, None, None, None, []), s.names, now, prepared)
  }

  /** What asking for a choice changes: probes, and at most one new selection. */
  lemma NextChanges(s: Scheduler, now: real, prepared: bool) returns (t: Scheduler)
    requires ProbesOk(s)
    ensures ProbesOk(t) && Grown(s, t)
    ensures var f, n := Walked(s, now, prepared), Next(s, now, prepared);
            if Chosen(f) == None then n == t
            else
              n == t.(selections := n.selections, nextSelection := n.nextSelection) &&
              n.nextSelection == t.nextSelection + 1 &&
              n.selections == t.selections[t.nextSelection := n.selections[t.nextSelection]] &&
              n.selections[t.nextSelection] ==
                Selection(Chosen(f).value, t.economic, t.serial, now, n.selections[t.nextSelection].probe, false, false,
                          f.ready, |t.turns|, 0.0) &&
              (Chosen(f).value.recovering ==>
                 n.selections[t.nextSelection].probe.Some? && n.selections[t.nextSelection].probe.value in t.heap)
  {
    hide ProbesOk;
    hide VisitAll;
    hide Chosen;
    hide Probed;
    VisitAllOk(Found(s, None, None, None, []), s.names, now, prepared);
    var f := Walked(s, now, prepared);
    t := f.s;
    if Chosen(f).Some? && Chosen(f).value.recovering {
      ProbedOk(f.s, Chosen(f).value.policy);
      t := Probed(f.s, Chosen(f).value.policy);
      assert t.probes[Chosen(f).value.policy] in t.heap by { HasProbe(t); }
      GrownTrans(s, f.s, t);
    }
  }

  lemma HasProbe(s: Scheduler)
    requires ProbesOk(s)
    ensures forall p :: p in s.probes ==> s.probes[p] in s.heap
  {
  }

  lemma {:induction false} OthersHave(order: seq<Policy>, policy: Policy, p: Policy)
    ensures p in Others(order, policy) <==> p in order && p != policy
  {
    if order != [] { OthersHave(order[1..], policy, p); }
  }

  lemma {:induction false} OthersDistinct(order: seq<Policy>, policy: Policy)
    requires Distinct(order)
    ensures Distinct(Others(order, policy)) && |Others(order, policy)| <= |order|
    ensures policy in order ==> |Others(order, policy)| < |order|
  {
    if order != [] {
      OthersDistinct(order[1..], policy);
      if order[0] != policy {
        OthersHave(order[1..], policy, order[0]);
        var rest := Others(order[1..], policy);
        assert order[0] !in order[1..];
        assert Others(order, policy) == [order[0]] + rest;
      }
    }
  }

  /** A start keeps the bookkeeping of probes. */
  lemma StartedOk(s: Scheduler, policy: Policy, id: ProbeId, now: real)
    requires ProbesOk(s) && id in s.heap
    ensures ProbesOk(Started(s, policy, id, now))
  {
    var t := Started(s, policy, id, now);
    if policy in s.probes && s.probes[policy] == id {
      OthersDistinct(s.order, policy);
      forall p ensures p in Others(s.order, policy) <==> p in s.order && p != policy { OthersHave(s.order, policy, p); }
      var rest := Others(s.order, policy);
      assert policy !in rest;
      assert Distinct(rest + [policy]);
    }
  }
}
