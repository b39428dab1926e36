/**
  What is chosen: in each domain the ready leader of the highest score, the rank deciding between equal scores; on an
  economic turn the best of these, on a fair one the first of them behind the last fair domain.
*/
module SchedulerChoice {
  import opened Outcomes
  import opened SchedulerSteps

  /** One entry beats another by its score, or by its rank if they are equal. */
  predicate Beats(a: Entry, b: Entry) {
    a.score > b.score || (a.score == b.score && a.rank < b.rank)
  }

  /** The best of some entries, if there are any. */
  predicate TopOf(ready: seq<Entry>, best: Option<Entry>) {
    (best == None <==> ready == []) && (best.Some? ==>
       best.value in ready && forall e :: e in ready ==> !Beats(e, best.value))
  }

  // -----------------------------------------------------------------
  // Who is ready
  // -----------------------------------------------------------------

  /** The leaders of a domain: the first row of every mask that has one. */
  function Leaders(masks: seq<seq<Entry>>): seq<Entry> {
    if masks == [] then [] else (if masks[0] == [] then [] else [masks[0][0]]) + Leaders(masks[1..])
  }

  /** The gate lets a probe through. */
  predicate Passable(s: Scheduler, now: real) {
    s.pending == None && s.nextGlobal <= now
  }

  /** When a policy may be probed again; one that is not tracked may be probed from time zero on. */
  function DueTime(s: Scheduler, policy: Policy): real {
    if policy in s.probes && s.probes[policy] in s.heap then s.heap[s.probes[policy]].nextDue else 0.0
  }

  /** A leader can be started: its transport is due, and if it is recovering, its probe may start. */
  predicate Startable(s: Scheduler, e: Entry, now: real) {
    e.due <= now && (e.recovering ==> Passable(s, now) && DueTime(s, e.policy) <= now)
  }

  /** Looking at a leader that is due looks up its probe if the gate lets probes through, and nothing else. */
  function Glance(s: Scheduler, e: Entry, now: real): Scheduler {
    if e.due <= now && e.recovering && Passable(s, now) then Probed(s, e.policy) else s
  }

  function Glances(s: Scheduler, leaders: seq<Entry>, now: real): Scheduler
    decreases |leaders|
  {
    if leaders == [] then s else Glances(Glance(s, leaders[0], now), leaders[1..], now)
  }

  /** The leaders that can be started, each when it is looked at. */
  function Ready(s: Scheduler, leaders: seq<Entry>, now: real): seq<Entry>
    decreases |leaders|
  {
    if leaders == [] then []
    else
      (if Startable(s, leaders[0], now) then [leaders[0]] else []) +
      Ready(Glance(s, leaders[0], now), leaders[1..], now)
  }

  function MasksOf(s: Scheduler, domain: Domain): seq<seq<Entry>> {
    if domain in s.groups then s.groups[domain] else []
  }

  /** The state in which the i-th domain is looked at. */
  function Before(s: Scheduler, i: nat, now: real): Scheduler
    requires i <= |s.names|
  {
    if i == 0 then s else Glances(Before(s, i - 1, now), Leaders(MasksOf(s, s.names[i - 1])), now)
  }

  /** The leaders of the i-th domain that can be started. */
  function ReadyIn(s: Scheduler, i: nat, now: real): seq<Entry>
    requires i < |s.names|
  {
    Ready(Before(s, i, now), Leaders(MasksOf(s, s.names[i])), now)
  }

  // -----------------------------------------------------------------
  // The walk finds the best
  // -----------------------------------------------------------------

  /** New probes are due at once. */
  lemma LookedUp(s: Scheduler, policy: Policy)
    ensures ProbeOf(Probed(s, policy), policy).nextDue == if policy in s.probes then DueTime(s, policy) else 0.0
    ensures policy !in s.probes ==> DueTime(s, policy) == 0.0
    ensures var t := Probed(s, policy);
            t == s.(probes := t.probes, heap := t.heap, order := t.order, nextProbe := t.nextProbe)
  {
    hide OldestOther;
  }

  lemma Weighed(b: Best, e: Entry, now: real)
    ensures Weigh(b, e, now) ==
            Best(Glance(b.s, e, now),
                 if Startable(b.s, e, now) && (b.best == None || Beats(e, b.best.value)) then Some(e) else b.best)
  {
    LookedUp(b.s, e.policy);
    hide Probed;
  }

  /** One more leader of a domain. */
  lemma ReadyFirst(s: Scheduler, e: Entry, rest: seq<Entry>, now: real)
    ensures Glances(s, [e] + rest, now) == Glances(Glance(s, e, now), rest, now)
    ensures Ready(s, [e] + rest, now) ==
            (if Startable(s, e, now) then [e] else []) + Ready(Glance(s, e, now), rest, now)
  {
    hide Glance;
    hide Startable;
    var leaders := [e] + rest;
    assert leaders[0] == e && leaders[1..] == rest;
  }

  /** The best of what was found before and of what is ready now. */
  lemma {:induction false} WeighedAll(b: Best, found: seq<Entry>, masks: seq<seq<Entry>>, now: real)
    requires TopOf(found, b.best)
    ensures WeighAll(b, masks, now).s == Glances(b.s, Leaders(masks), now)
    ensures TopOf(found + Ready(b.s, Leaders(masks), now), WeighAll(b, masks, now).best)
    decreases |masks|
  {
    hide Weigh;
    hide Glance;
    hide Startable;
    hide TopOf;
    hide Beats;
    if masks == [] {
      assert found + [] == found;
    } else if masks[0] == [] {
      assert Leaders(masks) == Leaders(masks[1..]);
      hide Ready;
      hide Glances;
      WeighedAll(b, found, masks[1..], now);
    } else {
      var e, rest := masks[0][0], Leaders(masks[1..]);
      assert Leaders(masks) == [e] + rest;
      var c := Weigh(b, e, now);
      assert WeighAll(b, masks, now) == WeighAll(c, masks[1..], now);
      hide Leaders;
      hide WeighAll;
      hide Ready;
      hide Glances;
      WeighedOne(b, found, e, now);
      ReadyFirst(b.s, e, rest, now);
      var more := if Startable(b.s, e, now) then found + [e] else found;
      WeighedAll(c, more, masks[1..], now);
      assert found + Ready(b.s, [e] + rest, now) == more + Ready(c.s, rest, now);
    }
  }

  lemma WeighedOne(b: Best, found: seq<Entry>, e: Entry, now: real)
    requires TopOf(found, b.best)
    ensures Weigh(b, e, now).s == Glance(b.s, e, now)
    ensures TopOf(if Startable(b.s, e, now) then found + [e] else found, Weigh(b, e, now).best)
  {
    Weighed(b, e, now);
    TopMore(found, b.best, e);
    hide Weigh;
    hide Glance;
    hide Startable;
    hide TopOf;
    hide Beats;
  }

  lemma TopMore(found: seq<Entry>, best: Option<Entry>, e: Entry)
    requires TopOf(found, best)
    ensures TopOf(found + [e], if best == None || Beats(e, best.value) then Some(e) else best)
  {
    var more := found + [e];
    forall x | x in more ensures x in found || x == e {}
    assert e in more && forall x :: x in found ==> x in more;
  }

  /** Looking at leaders changes the probes and nothing that the walk depends on. */
  lemma {:induction false} GlancesKeep(s: Scheduler, leaders: seq<Entry>, now: real)
    ensures var t := Glances(s, leaders, now);
            t == s.(probes := t.probes, heap := t.heap, order := t.order, nextProbe := t.nextProbe)
    ensures !Passable(s, now) ==> Glances(s, leaders, now) == s
    decreases |leaders|
  {
    hide Probed;
    if leaders != [] {
      LookedUp(s, leaders[0].policy);
      GlancesKeep(Glance(s, leaders[0], now), leaders[1..], now);
    }
  }

  lemma {:induction false} BeforeKeeps(s: Scheduler, i: nat, now: real)
    requires i <= |s.names|
    ensures var t := Before(s, i, now);
            t == s.(probes := t.probes, heap := t.heap, order := t.order, nextProbe := t.nextProbe)
    ensures !Passable(s, now) ==> Before(s, i, now) == s
  {
    if i > 0 {
      BeforeKeeps(s, i - 1, now);
      GlancesKeep(Before(s, i - 1, now), Leaders(MasksOf(s, s.names[i - 1])), now);
    }
  }

  // -----------------------------------------------------------------
  // The choice
  // -----------------------------------------------------------------

  /** The i-th domain has a best leader, of the wanted kind. */
  predicate Candidate(tops: seq<Option<Entry>>, i: int, prepared: bool) {
    0 <= i < |tops| && tops[i].Some? && tops[i].value.prepared == prepared
  }

  predicate FirstCandidate(tops: seq<Option<Entry>>, i: int, prepared: bool) {
    Candidate(tops, i, prepared) && forall k :: 0 <= k < i ==> !Candidate(tops, k, prepared)
  }

  /** The first candidate behind a place. */
  predicate FirstBehind(names: seq<Domain>, tops: seq<Option<Entry>>, i: int, place: Domain, prepared: bool)
    requires |tops| <= |names|
  {
    Candidate(tops, i, prepared) && names[i] > place &&
    forall k :: 0 <= k < i && names[k] > place ==> !Candidate(tops, k, prepared)
  }

  predicate NoneBehind(names: seq<Domain>, tops: seq<Option<Entry>>, place: Domain, prepared: bool)
    requires |tops| <= |names|
  {
    forall k :: 0 <= k < |tops| && names[k] > place ==> !Candidate(tops, k, prepared)
  }

  /** No candidate beats the i-th one. */
  ghost predicate BestCandidate(tops: seq<Option<Entry>>, i: int, prepared: bool) {
    Candidate(tops, i, prepared) && forall k :: Candidate(tops, k, prepared) ==> !Beats(tops[k].value, tops[i].value)
  }

  /** The domains of the candidates, in order. */
  function ReadyDomains(names: seq<Domain>, tops: seq<Option<Entry>>, prepared: bool): seq<Domain>
    requires |tops| <= |names|
  {
    if tops == [] then []
    else
      var n := |tops| - 1;
      ReadyDomains(names, tops[..n], prepared) +
      if tops[n].Some? && tops[n].value.prepared == prepared then [names[n]] else []
  }

  /** The i-th candidate is the one that a kind of turn takes. */
  ghost predicate Takes(s: Scheduler, tops: seq<Option<Entry>>, i: int, prepared: bool)
    requires |tops| <= |s.names|
  {
    if s.economic then BestCandidate(tops, i, prepared)
    else
      FirstBehind(s.names, tops, i, s.domainAfter, prepared) ||
      (NoneBehind(s.names, tops, s.domainAfter, prepared) && FirstCandidate(tops, i, prepared))
  }

  /** What the walk has found after some domains. */
  ghost predicate Walks(s: Scheduler, f: Found, tops: seq<Option<Entry>>, now: real, prepared: bool) {
    |tops| <= |s.names| && f.s == Before(s, |tops|, now) && f.ready == ReadyDomains(s.names, tops, prepared) &&
    (forall i :: 0 <= i < |tops| ==> TopOf(ReadyIn(s, i, now), tops[i])) &&
    Picks(s, f, tops, prepared)
  }

  ghost predicate Picks(s: Scheduler, f: Found, tops: seq<Option<Entry>>, prepared: bool)
    requires |tops| <= |s.names|
  {
    (f.first == None <==> forall i :: !Candidate(tops, i, prepared)) &&
    (f.first.Some? ==> exists i :: FirstCandidate(tops, i, prepared) && tops[i] == f.first) &&
    (f.after == None <==> NoneBehind(s.names, tops, s.domainAfter, prepared)) &&
    (f.after.Some? ==> exists i :: FirstBehind(s.names, tops, i, s.domainAfter, prepared) && tops[i] == f.after) &&
    (s.economic ==>
       (f.reward == None <==> forall i :: !Candidate(tops, i, prepared)) &&
       (f.reward.Some? ==> exists i :: BestCandidate(tops, i, prepared) && tops[i] == f.reward))
  }

  /** One more domain of the walk: what a new best leader does to what was found. */
  lemma PicksMore(s: Scheduler, f: Found, g: Found, tops: seq<Option<Entry>>, best: Option<Entry>, prepared: bool)
    requires |tops| < |s.names| && Picks(s, f, tops, prepared)
    requires var candidate := best.Some? && best.value.prepared == prepared;
             g.first == (if candidate && f.first == None then best else f.first) &&
             g.after ==
               (if candidate && f.after == None && s.names[|tops|] > s.domainAfter then best else f.after) &&
             (s.economic ==>
                g.reward ==
                if candidate && (f.reward == None || Beats(best.value, f.reward.value)) then best else f.reward)
    ensures Picks(s, g, tops + [best], prepared)
  {
    var more, n := tops + [best], |tops|;
    assert forall i :: 0 <= i < n ==> more[i] == tops[i];
    FirstMore(tops, best, prepared, f.first, g.first);
    BehindMore(s.names, tops, best, s.domainAfter, prepared, f.after, g.after);
    if s.economic { BestMore(tops, best, prepared, f.reward, g.reward); }
  }

  lemma CandidateMore(tops: seq<Option<Entry>>, best: Option<Entry>, prepared: bool)
    ensures forall i :: Candidate(tops + [best], i, prepared) <==>
              Candidate(tops, i, prepared) || (i == |tops| && best.Some? && best.value.prepared == prepared)
  {
  }

  lemma FirstMore(tops: seq<Option<Entry>>, best: Option<Entry>, prepared: bool, old': Option<Entry>,
                  new': Option<Entry>)
    requires old' == None <==> forall i :: !Candidate(tops, i, prepared)
    requires old'.Some? ==> exists i :: FirstCandidate(tops, i, prepared) && tops[i] == old'
    requires new' == if best.Some? && best.value.prepared == prepared && old' == None then best else old'
    ensures new' == None <==> forall i :: !Candidate(tops + [best], i, prepared)
    ensures new'.Some? ==> exists i :: FirstCandidate(tops + [best], i, prepared) && (tops + [best])[i] == new'
  {
    CandidateMore(tops, best, prepared);
    var more := tops + [best];
    if old'.Some? {
      var i :| FirstCandidate(tops, i, prepared) && tops[i] == old';
      assert FirstCandidate(more, i, prepared) && more[i] == new';
    } else if new'.Some? {
      assert FirstCandidate(more, |tops|, prepared) && more[|tops|] == new';
    }
  }

  lemma BehindMore(names: seq<Domain>, tops: seq<Option<Entry>>, best: Option<Entry>, place: Domain, prepared: bool,
                   old': Option<Entry>, new': Option<Entry>)
    requires |tops| < |names|
    requires old' == None <==> NoneBehind(names, tops, place, prepared)
    requires old'.Some? ==> exists i :: FirstBehind(names, tops, i, place, prepared) && tops[i] == old'
    requires new' ==
             if best.Some? && best.value.prepared == prepared && old' == None &&
             names[|tops|] > place then best else old'
    ensures new' == None <==> NoneBehind(names, tops + [best], place, prepared)
    ensures new'.Some? ==>
              exists i :: FirstBehind(names, tops + [best], i, place, prepared) && (tops + [best])[i] == new'
  {
    CandidateMore(tops, best, prepared);
    var more := tops + [best];
    if old'.Some? {
      var i :| FirstBehind(names, tops, i, place, prepared) && tops[i] == old';
      assert FirstBehind(names, more, i, place, prepared) && more[i] == new';
    } else if new'.Some? {
      assert FirstBehind(names, more, |tops|, place, prepared) && more[|tops|] == new';
    }
  }

  lemma BestMore(tops: seq<Option<Entry>>, best: Option<Entry>, prepared: bool, old': Option<Entry>,
                 new': Option<Entry>)
    requires old' == None <==> forall i :: !Candidate(tops, i, prepared)
    requires old'.Some? ==> exists i :: BestCandidate(tops, i, prepared) && tops[i] == old'
    requires new' ==
             if best.Some? && best.value.prepared == prepared && (old' == None || Beats(best.value, old'.value))
             then best else old'
    ensures new' == None <==> forall i :: !Candidate(tops + [best], i, prepared)
    ensures new'.Some? ==> exists i :: BestCandidate(tops + [best], i, prepared) && (tops + [best])[i] == new'
  {
    CandidateMore(tops, best, prepared);
    var more := tops + [best];
    if new' == old' && old'.Some? {
      var i :| BestCandidate(tops, i, prepared) && tops[i] == old';
      assert BestCandidate(more, i, prepared) && more[i] == new';
    } else if new'.Some? {
      if old'.Some? { var i :| BestCandidate(tops, i, prepared) && tops[i] == old'; }
      assert BestCandidate(more, |tops|, prepared) && more[|tops|] == new';
    }
  }

  /** The top of the next domain. */
  lemma NextTop(s: Scheduler, n: nat, now: real) returns (b: Best)
    requires n < |s.names|
    ensures b == WeighAll(Best(Before(s, n, now), None), MasksOf(Before(s, n, now), s.names[n]), now)
    ensures b.s == Before(s, n + 1, now) && TopOf(ReadyIn(s, n, now), b.best)
  {
    BeforeKeeps(s, n, now);
    var t, masks := Before(s, n, now), MasksOf(s, s.names[n]);
    assert Before(s, n + 1, now) == Glances(t, Leaders(masks), now);
    assert ReadyIn(s, n, now) == Ready(t, Leaders(masks), now);
    assert MasksOf(t, s.names[n]) == masks;
    hide Before;
    hide Ready;
    hide Glances;
    hide Leaders;
    hide ReadyIn;
    hide WeighAll;
    WeighedAll(Best(t, None), [], masks, now);
    assert [] + Ready(t, Leaders(masks), now) == Ready(t, Leaders(masks), now);
    b := WeighAll(Best(t, None), masks, now);
  }

  lemma DomainsMore(names: seq<Domain>, tops: seq<Option<Entry>>, best: Option<Entry>, prepared: bool)
    requires |tops| < |names|
    ensures ReadyDomains(names, tops + [best], prepared) ==
            if best.Some? && best.value.prepared == prepared
            then ReadyDomains(names, tops, prepared) + [names[|tops|]] else ReadyDomains(names, tops, prepared)
  {
    assert (tops + [best])[..|tops|] == tops;
  }

  lemma VisitWalks(s: Scheduler, f: Found, tops: seq<Option<Entry>>, now: real, prepared: bool)
    returns (best: Option<Entry>)
    requires |tops| < |s.names| && Walks(s, f, tops, now, prepared)
    ensures Walks(s, Visit(f, s.names[|tops|], now, prepared), tops + [best], now, prepared)
  {
    hide Visit;
    hide WeighAll;
    hide Picks;
    hide ReadyIn;
    hide TopOf;
    hide Before;
    hide ReadyDomains;
    hide Beats;
    var n, d := |tops|, s.names[|tops|];
    BeforeKeeps(s, n, now);
    BeforeKeeps(s, n + 1, now);
    var b := NextTop(s, n, now);
    best := b.best;
    hide MasksOf;
    VisitFinds(s, f, b, d, now, prepared);
    DomainsMore(s.names, tops, best, prepared);
    PicksMore(s, f, Visit(f, d, now, prepared), tops, best, prepared);
    var more := tops + [best];
    assert forall i :: 0 <= i < n ==> more[i] == tops[i];
  }

  /** What a visit finds, in terms of the best leader of the domain. */
  lemma VisitFinds(s: Scheduler, f: Found, b: Best, d: Domain, now: real, prepared: bool)
    requires b == WeighAll(Best(f.s, None), MasksOf(f.s, d), now)
    requires b.s.economic == s.economic == f.s.economic && f.s.domainAfter == s.domainAfter
    ensures var g, candidate := Visit(f, d, now, prepared), b.best.Some? && b.best.value.prepared == prepared;
            g.s == b.s && g.ready == (if candidate then f.ready + [d] else f.ready) &&
            g.first == (if candidate && f.first == None then b.best else f.first) &&
            g.after == (if candidate && f.after == None && d > s.domainAfter then b.best else f.after) &&
            (s.economic ==>
               g.reward ==
               if candidate && (f.reward == None || Beats(b.best.value, f.reward.value)) then b.best else f.reward)
  {
    hide WeighAll;
  }

  lemma {:induction false} WalkAll(s: Scheduler, f: Found, tops: seq<Option<Entry>>, now: real, prepared: bool)
    returns (all: seq<Option<Entry>>)
    requires |tops| <= |s.names| && Walks(s, f, tops, now, prepared)
    ensures Walks(s, VisitAll(f, s.names[|tops|..], now, prepared), all, now, prepared) && |all| == |s.names|
    decreases |s.names| - |tops|
  {
    hide Walks;
    hide Visit;
    if |tops| == |s.names| {
      all := tops;
    } else {
      var best := VisitWalks(s, f, tops, now, prepared);
      assert s.names[|tops|..][0] == s.names[|tops|] && s.names[|tops|..][1..] == s.names[|tops| + 1..];
      all := WalkAll(s, Visit(f, s.names[|tops|], now, prepared), tops + [best], now, prepared);
    }
  }

  /** Where the walk ends, and what it has found. */
  lemma WalkEnds(s: Scheduler, now: real, prepared: bool) returns (g: Found, tops: seq<Option<Entry>>)
    ensures g == VisitAll(Found(s, None, None, None, []), s.names, now, prepared)
    ensures |tops| == |s.names| && forall i :: 0 <= i < |tops| ==> TopOf(ReadyIn(s, i, now), tops[i])
    ensures g.s == s.(probes := g.s.probes, heap := g.s.heap, order := g.s.order, nextProbe := g.s.nextProbe)
    ensures g.ready == ReadyDomains(s.names, tops, prepared)
    ensures Chosen(g) == None <==> forall i :: !Candidate(tops, i, prepared)
    ensures Chosen(g).Some? ==> exists i :: 0 <= i < |tops| && Takes(s, tops, i, prepared) && tops[i] == Chosen(g)
    ensures !Passable(s, now) ==> g.s == s && (Chosen(g).Some? ==> !Chosen(g).value.recovering)
  {
    hide VisitAll;
    hide ReadyIn;
    hide TopOf;
    hide Chosen;
    hide Takes;
    var f := Found(s, None, None, None, []);
    assert Walks(s, f, [], now, prepared);
    assert s.names[0..] == s.names;
    tops := WalkAll(s, f, [], now, prepared);
    g := VisitAll(f, s.names, now, prepared);
    BeforeKeeps(s, |s.names|, now);
    hide Before;
    ChosenTakes(s, g, tops, prepared);
    if Chosen(g).Some? && !Passable(s, now) {
      var i :| 0 <= i < |tops| && tops[i] == Chosen(g);
      TopReady(s, i, tops[i], now);
    }
  }

  /**
    Theorem: in every state, a choice is made exactly if some domain has a ready leader of the wanted kind at its top.
    An economic turn takes the top that no other beats; a fair one the first top behind the last fair domain, or else
    the very first. In each domain the top is a ready leader that no other ready leader beats.
  */
  lemma ChoiceIsBest(s: Scheduler, now: real, prepared: bool) returns (tops: seq<Option<Entry>>)
    ensures |tops| == |s.names| && forall i :: 0 <= i < |tops| ==> TopOf(ReadyIn(s, i, now), tops[i])
    ensures var n := Next(s, now, prepared);
            if forall i :: !Candidate(tops, i, prepared)
            then n.selections == s.selections && n.nextSelection == s.nextSelection
            else
              n.nextSelection == s.nextSelection + 1 && s.nextSelection in n.selections &&
              n.selections == s.selections[s.nextSelection := n.selections[s.nextSelection]] &&
              var c := n.selections[s.nextSelection];
              (exists i :: 0 <= i < |tops| && Takes(s, tops, i, prepared) && tops[i] == Some(c.entry)) &&
              c.economic == s.economic && c.serial == s.serial && c.selectedAt == now && !c.reserved && !c.committed &&
              c.ready == ReadyDomains(s.names, tops, prepared) &&
              (if c.entry.recovering then c.entry.policy in n.probes && c.probe == Some(n.probes[c.entry.policy])
               else c.probe == None)
    ensures !Passable(s, now) ==>
              var n := Next(s, now, prepared);
              n.probes == s.probes && n.heap == s.heap && n.order == s.order && n.nextProbe == s.nextProbe
  {
    hide VisitAll;
    hide ReadyIn;
    hide TopOf;
    hide Takes;
    hide Chosen;
    hide Passable;
    var g;
    g, tops := WalkEnds(s, now, prepared);
    if Chosen(g).Some? { LookedUp(g.s, Chosen(g).value.policy); }
    hide Probed;
  }

  /** What is ready while no probe may start is not recovering. */
  lemma TopReady(s: Scheduler, i: nat, top: Option<Entry>, now: real)
    requires i < |s.names| && TopOf(ReadyIn(s, i, now), top) && top.Some? && !Passable(s, now)
    ensures !top.value.recovering
  {
    BeforeKeeps(s, i, now);
    hide Before;
    ReadyPlain(Before(s, i, now), Leaders(MasksOf(s, s.names[i])), now, top.value);
  }

  lemma {:induction false} ReadyPlain(s: Scheduler, leaders: seq<Entry>, now: real, e: Entry)
    requires !Passable(s, now) && e in Ready(s, leaders, now)
    ensures !e.recovering
    decreases |leaders|
  {
    if !(Startable(s, leaders[0], now) && e == leaders[0]) { ReadyPlain(s, leaders[1..], now, e); }
  }

  lemma ChosenTakes(s: Scheduler, g: Found, tops: seq<Option<Entry>>, prepared: bool)
    requires |tops| == |s.names| && Picks(s, g, tops, prepared) && g.s.economic == s.economic
    ensures Chosen(g) == None <==> forall i :: !Candidate(tops, i, prepared)
    ensures Chosen(g).Some? ==> exists i :: 0 <= i < |tops| && Takes(s, tops, i, prepared) && tops[i] == Chosen(g)
  {
    if !s.economic && g.after.Some? {
      var i :| FirstBehind(s.names, tops, i, s.domainAfter, prepared) && tops[i] == g.after;
      assert Takes(s, tops, i, prepared) && Candidate(tops, i, prepared);
    } else if !s.economic && g.first.Some? {
      var i :| FirstCandidate(tops, i, prepared) && tops[i] == g.first;
      assert Takes(s, tops, i, prepared);
    } else if s.economic && g.reward.Some? {
      var i :| BestCandidate(tops, i, prepared) && tops[i] == g.reward;
      assert Takes(s, tops, i, prepared);
    }
  }
}
