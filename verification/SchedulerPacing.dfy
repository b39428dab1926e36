/**
  Probe starts over whole runs: the gate keeps them apart if every start is acknowledged while its probe is pending.
*/
module SchedulerPacing {
  import opened Outcomes
  import opened SchedulerSteps
  import opened SchedulerProbes

  ghost predicate ChoiceOk(s: Scheduler, c: Selection) {
    (c.entry.recovering ==> c.probe.Some? && c.probe.value in s.heap) && (c.committed ==> c.reserved)
  }

  ghost predicate ChoicesOk(s: Scheduler) {
    (forall id :: id in s.selections ==> id < s.nextSelection && ChoiceOk(s, s.selections[id])) &&
    (s.pending.Some? ==> s.pending.value in s.selections && Pending(s.selections[s.pending.value]))
  }

  ghost predicate Pending(c: Selection) {
    c.entry.recovering && c.reserved && !c.committed
  }

  /** The gate is behind every start, starts keep their distance, and the pending probe was taken up behind the gate. */
  ghost predicate GateOk(s: Scheduler) {
    (forall i :: 0 <= i < |s.starts| ==> s.starts[i].time + GATE <= s.nextGlobal) &&
    (forall i, k :: 0 <= i < k < |s.starts| ==> s.starts[i].time + GATE <= s.starts[k].time) &&
    (s.pending.Some? && s.pending.value in s.selections ==>
       s.nextGlobal <= s.selections[s.pending.value].reservedAt)
  }

  /** Every probe is due no earlier than its starts allow, and the pending one was taken up when it was due. */
  ghost predicate PacesOk(s: Scheduler) {
    (forall i :: 0 <= i < |s.starts| ==>
       s.starts[i].probe in s.heap &&
       s.starts[i].time + Gap(s.starts[i].number) <= s.heap[s.starts[i].probe].nextDue) &&
    (forall i, k :: 0 <= i < k < |s.starts| && s.starts[i].probe == s.starts[k].probe ==>
       s.starts[i].time + Gap(s.starts[i].number) <= s.starts[k].time) &&
    (s.pending.Some? && s.pending.value in s.selections ==>
       DueOf(s, s.selections[s.pending.value]) <= s.selections[s.pending.value].reservedAt)
  }

  function CountOf(starts: seq<Start>, probe: ProbeId): nat {
    if starts == []
    then 0 else CountOf(starts[..|starts| - 1], probe) + if starts[|starts| - 1].probe == probe then 1
    else 0
  }

  function UpTo(n: nat): nat {
    if n < CALIBRATIONS then n else CALIBRATIONS
  }

  /** Probes count their starts, up to the limit. */
  ghost predicate NumbersOk(s: Scheduler) {
    (forall id :: id in s.heap ==> s.heap[id].starts == UpTo(CountOf(s.starts, id))) &&
    (forall i :: 0 <= i < |s.starts| ==>
       s.starts[i].probe in s.heap && s.starts[i].number == UpTo(CountOf(s.starts[..i + 1], s.starts[i].probe)))
  }

  ghost predicate Sound(s: Scheduler) {
    ProbesOk(s) && ChoicesOk(s) && GateOk(s) && PacesOk(s) && NumbersOk(s)
  }

  lemma {:induction false} NeverStarted(starts: seq<Start>, probe: ProbeId)
    requires forall i :: 0 <= i < |starts| ==> starts[i].probe != probe
    ensures CountOf(starts, probe) == 0
  {
    if starts != [] { NeverStarted(starts[..|starts| - 1], probe); }
  }

  /** Looking up probes changes nothing of this. */
  lemma GrownSound(s: Scheduler, t: Scheduler)
    requires Sound(s) && ProbesOk(t) && Grown(s, t)
    ensures Sound(t)
  {
    hide ProbesOk;
    hide CountOf;
    forall id | id in t.selections ensures ChoiceOk(t, t.selections[id]) { assert ChoiceOk(s, s.selections[id]); }
    forall id | id in t.heap ensures t.heap[id].starts == UpTo(CountOf(t.starts, id)) {
      if id !in s.heap { NeverStarted(s.starts, id); }
    }
    if s.pending.Some? { assert ChoiceOk(s, s.selections[s.pending.value]); }
  }

  /** Rows and names play no part. */
  lemma RowsSound(s: Scheduler, t: Scheduler)
    requires Sound(s) && t == s.(names := t.names, groups := t.groups)
    ensures Sound(t)
  {
    hide CountOf;
    hide Tracked;
    forall id | id in t.selections ensures ChoiceOk(t, t.selections[id]) { assert ChoiceOk(s, s.selections[id]); }
  }

  lemma ChooseSound(s: Scheduler, now: real, prepared: bool)
    requires Sound(s)
    ensures Sound(Next(s, now, prepared))
  {
    hide Next;
    hide Walked;
    hide Chosen;
    hide Sound;
    var t := NextChanges(s, now, prepared) by { Parts(s); }
    GrownSound(s, t);
    var n := Next(s, now, prepared);
    if Chosen(Walked(s, now, prepared)) != None {
      ChosenSound(t, n);
    }
  }

  lemma Parts(s: Scheduler)
    requires Sound(s)
    ensures ProbesOk(s) && ChoicesOk(s)
  {
  }

  /** A new choice that is not taken up yet. */
  lemma ChosenSound(t: Scheduler, n: Scheduler)
    requires Sound(t)
    requires n == t.(selections := n.selections, nextSelection := n.nextSelection) &&
             n.nextSelection == t.nextSelection + 1
    requires t.nextSelection in n.selections &&
             n.selections == t.selections[t.nextSelection := n.selections[t.nextSelection]]
    requires ChoiceOk(t, n.selections[t.nextSelection])
    ensures Sound(n)
  {
    hide CountOf;
    hide Tracked;
    forall id | id in n.selections ensures id < n.nextSelection && ChoiceOk(n, n.selections[id]) {
      if id != t.nextSelection { assert ChoiceOk(t, t.selections[id]); }
    }
  }

  lemma TakeSound(s: Scheduler, id: SelectionId, time: real)
    requires Sound(s)
    ensures Sound(Reserve(s, id, time))
  {
    hide ProbesOk;
    hide NumbersOk;
    hide GateOk;
    hide PacesOk;
    hide GateOpen;
    var t := Reserve(s, id, time);
    RowsApart(s, t);
    NumbersApart(s, t);
    TakeGate(s, id, time);
    forall x | x in t.selections
      ensures x < t.nextSelection && ChoiceOk(t, t.selections[x])
    {
      assert ChoiceOk(s, s.selections[x]);
    }
  }

  lemma NumbersApart(s: Scheduler, t: Scheduler)
    requires NumbersOk(s) && t.heap == s.heap && t.starts == s.starts
    ensures NumbersOk(t)
  {
    hide CountOf;
  }

  /** A reservation finds the gate and the probe behind the present. */
  lemma TakeGate(s: Scheduler, id: SelectionId, time: real)
    requires GateOk(s) && PacesOk(s) && ChoicesOk(s)
    ensures GateOk(Reserve(s, id, time)) && PacesOk(Reserve(s, id, time))
  {
    hide Gap;
  }

  lemma DropSound(s: Scheduler, id: SelectionId)
    requires Sound(s)
    ensures Sound(Release(s, id))
  {
    hide CountOf;
    hide Tracked;
    var t := Release(s, id);
    forall x | x in t.selections
      ensures x < t.nextSelection && ChoiceOk(t, t.selections[x])
    {
      assert ChoiceOk(s, s.selections[x]);
    }
  }

  /** A start of the pending probe. */
  lemma StartSound(s: Scheduler, id: SelectionId, now: real)
    requires Sound(s) && s.pending == Some(id) && now >= s.selections[id].reservedAt
    ensures Sound(Acknowledge(s, id, now))
  {
    hide CountOf;
    hide ProbesOk;
    var c := s.selections[id];
    assert ChoiceOk(s, c);
    var probe := c.probe.value;
    var t := s.(selections := s.selections[id := c.(committed := true)]);
    var u := Started(t, c.entry.policy, probe, now);
    assert Acknowledge(s, id, now) == u.(pending := None);
    assert ProbesOk(t) by { RowsApart(s, t); }
    StartedOk(t, c.entry.policy, probe, now);
    StartNumbers(s, u, probe, u.heap[probe], now);
    StartPaces(s, u, probe, u.heap[probe], now);
    assert ProbesOk(u.(pending := None)) by { RowsApart(u, u.(pending := None)); }
    forall x | x in u.selections
      ensures x < u.nextSelection && ChoiceOk(u, u.selections[x])
    {
      assert ChoiceOk(s, s.selections[x]);
    }
  }

  /** The bookkeeping of probes does not look at selections. */
  lemma RowsApart(s: Scheduler, t: Scheduler)
    requires ProbesOk(s) && t.order == s.order && t.probes == s.probes && t.heap == s.heap && t.nextProbe == s.nextProbe
    ensures ProbesOk(t)
  {
  }

  lemma StartNumbers(s: Scheduler, u: Scheduler, probe: ProbeId, p: Probe, now: real)
    requires NumbersOk(s) && probe in s.heap
    requires u.starts == s.starts + [Start(now, probe, UpTo(s.heap[probe].starts + 1))]
    requires u.heap == s.heap[probe := p] && p.starts == UpTo(s.heap[probe].starts + 1)
    ensures NumbersOk(u)
  {
    hide CountOf;
    forall i | 0 <= i < |u.starts|
      ensures u.starts[i].probe in u.heap && u.starts[i].number == UpTo(CountOf(u.starts[..i + 1], u.starts[i].probe))
    {
      if i < |s.starts| {
        assert u.starts[..i + 1] == s.starts[..i + 1] && u.starts[i] == s.starts[i];
      } else {
        CountMore(s.starts, u.starts[i], probe);
        assert u.starts[..i + 1] == u.starts;
      }
    }
    forall id | id in u.heap ensures u.heap[id].starts == UpTo(CountOf(u.starts, id)) {
      CountMore(s.starts, u.starts[|s.starts|], id);
    }
  }

  lemma CountMore(starts: seq<Start>, x: Start, probe: ProbeId)
    ensures CountOf(starts + [x], probe) == CountOf(starts, probe) + if x.probe == probe then 1 else 0
  {
    assert (starts + [x])[..|starts|] == starts;
  }

  lemma StartPaces(s: Scheduler, u: Scheduler, probe: ProbeId, p: Probe, now: real)
    requires PacesOk(s) && GateOk(s) && probe in s.heap
    requires s.heap[probe].nextDue <= now && s.nextGlobal <= now
    requires |u.starts| == |s.starts| + 1 && u.starts[..|s.starts|] == s.starts
    requires u.starts[|s.starts|].time == now && u.starts[|s.starts|].probe == probe
    requires u.heap == s.heap[probe := p] && p.nextDue >= s.heap[probe].nextDue
    requires p.nextDue >= now + Gap(u.starts[|s.starts|].number) && u.nextGlobal >= s.nextGlobal &&
             u.nextGlobal >= now + GATE
    ensures PacesOk(u.(pending := None)) && GateOk(u.(pending := None))
  {
    hide Gap;
    forall i | 0 <= i < |s.starts|
      ensures u.starts[i] == s.starts[i]
    {
      assert u.starts[i] == u.starts[..|s.starts|][i];
    }
  }

  /** An acknowledgement of something that is no probe. */
  lemma ConfirmOther(s: Scheduler, id: SelectionId, now: real)
    requires Sound(s) && Acknowledgeable(s, id) && !s.selections[id].entry.recovering
    ensures Sound(Acknowledge(s, id, now))
  {
    hide CountOf;
    hide Tracked;
    var t := Acknowledge(s, id, now);
    forall x | x in t.selections
      ensures x < t.nextSelection && ChoiceOk(t, t.selections[x])
    {
      assert ChoiceOk(s, s.selections[x]);
    }
  }

  lemma Confirming(s: Scheduler, id: SelectionId)
    requires Sound(s) && id in s.selections && s.selections[id].entry.recovering
    ensures s.selections[id].probe.Some? && s.selections[id].probe.value in s.heap
  {
    hide CountOf;
    assert ChoiceOk(s, s.selections[id]);
  }

  /** Every call keeps all this, if a start is acknowledged while its probe is pending and dated no earlier than it. */
  lemma StepSound(s: Scheduler, call: Call)
    requires Sound(s) && Prompt(s, call) && Dated(s, call)
    ensures Sound(Step(s, call))
  {
    hide Sound;
    hide Next;
    hide Reserve;
    hide Release;
    match call {
      case Choose(now, prepared) => ChooseSound(s, now, prepared);
      case Take(id, time) => TakeSound(s, id, time);
      case Confirm(id, now) =>
        if Acknowledgeable(s, id) && s.selections[id].entry.recovering {
          Confirming(s, id);
          StartSound(s, id, now);
        } else if Acknowledgeable(s, id) {
          ConfirmOther(s, id, now);
        }
      case Drop(id) => DropSound(s, id);
      case Rows(admitted, names, groups) =>
        Parts(s);
        ProbedAllOk(s, admitted);
        GrownSound(s, ProbedAll(s, admitted));
        RowsSound(ProbedAll(s, admitted), Rebuild(s, admitted, names, groups));
      case Forget => RowsSound(s, Clear(s));
    }
  }

  // -----------------------------------------------------------------
  // Runs
  // -----------------------------------------------------------------

  function After(s: Scheduler, calls: seq<Call>): Scheduler
    decreases |calls|
  {
    if calls == [] then s else After(Step(s, calls[0]), calls[1..])
  }

  predicate PromptRun(s: Scheduler, calls: seq<Call>)
    decreases |calls|
  {
    calls == [] || (Prompt(s, calls[0]) && PromptRun(Step(s, calls[0]), calls[1..]))
  }

  predicate DatedRun(s: Scheduler, calls: seq<Call>)
    decreases |calls|
  {
    calls == [] || (Dated(s, calls[0]) && DatedRun(Step(s, calls[0]), calls[1..]))
  }

  lemma {:induction false} RunSound(s: Scheduler, calls: seq<Call>)
    requires Sound(s) && PromptRun(s, calls) && DatedRun(s, calls)
    ensures Sound(After(s, calls))
    decreases |calls|
  {
    hide Sound;
    hide Step;
    hide Prompt;
    hide Dated;
    if calls != [] {
      StepSound(s, calls[0]);
      RunSound(Step(s, calls[0]), calls[1..]);
    }
  }

  /** How far the next start of a probe has to be from its n-th one: the first 32 are for calibration. */
  function Distance(n: nat): real {
    if n < 32 then 0.25 else 60.0
  }

  /**
    Theorem: in every run in which starts are acknowledged before their probes are released, and dated no earlier than
    they were reserved, acknowledged starts are a quarter of a second apart, whatever rows come and go and whatever the
    clocks of other calls show; those of one probe are a minute apart once it has had 32; and no more than 256 policies
    are tracked.
  */
  lemma ProbesKeepApart(calls: seq<Call>)
    requires PromptRun(START, calls) && DatedRun(START, calls)
    ensures var s := After(START, calls);
            |s.order| <= 256 && |s.probes| <= 256 &&
            (forall i, k :: 0 <= i < k < |s.starts| ==> s.starts[i].time + 0.25 <= s.starts[k].time) &&
            (forall i, k :: 0 <= i < k < |s.starts| && s.starts[i].probe == s.starts[k].probe ==>
               s.starts[i].time + Distance(CountOf(s.starts[..i + 1], s.starts[i].probe)) <= s.starts[k].time)
  {
    hide After;
    hide CountOf;
    assert Sound(START);
    RunSound(START, calls);
    TrackedSize(After(START, calls).order, After(START, calls).probes);
  }

  /** There are as many probes as policies in order. */
  lemma {:induction false} TrackedSize(order: seq<Policy>, probes: map<Policy, ProbeId>)
    requires Tracked(order, probes)
    ensures |probes| == |order|
    decreases |order|
  {
    if order == [] {
      assert forall p :: p !in probes;
      assert probes == map[];
    } else {
      CutTracked(order, probes, 0);
      TrackedSize(Cut(order, 0), probes - {order[0]});
      assert order[0] in order;
      assert probes.Keys == (probes - {order[0]}).Keys + {order[0]};
      assert |probes.Keys| == |probes| && |(probes - {order[0]}).Keys| == |probes - {order[0]}|;
    }
  }

  // -----------------------------------------------------------------
  // Why starts must be acknowledged before they are released
  // -----------------------------------------------------------------

  const LONE: Entry := Entry(7, 1, 0, 1.0, true, 0.0, false)

  const LATE: seq<Call> := [
    Rows([7], [1], map[1 := [[LONE]]]), Choose(0.0, false), Take(0, 0.0), Drop(0),
    Choose(0.0, false), Take(1, 0.0), Confirm(1, 0.0), Confirm(0, 0.0)]

  /** A choice of the lone entry. */
  lemma LoneChoice(s: Scheduler)
    requires s.names == [1] && s.groups == map[1 := [[LONE]]] && s.pending == None && s.nextGlobal <= 0.0
    requires s.probes == map[7 := 0] && 0 in s.heap && s.heap[0].nextDue <= 0.0 && s.domainAfter <= 1
    ensures var c := Selection(LONE, s.economic, s.serial, 0.0, Some(0), false, false, [1], |s.turns|, 0.0);
            Next(s, 0.0,
                 false) == s.(selections := s.selections[s.nextSelection := c], nextSelection := s.nextSelection + 1)
  {
    var f := Found(s, None, None, None, []);
    assert s.groups[1] == [[LONE]] && [[LONE]][1..] == [];
    assert WeighAll(Best(s, None), [[LONE]], 0.0) == Best(s, Some(LONE)) by {
      assert Weigh(Best(s, None), LONE, 0.0) == Best(s, Some(LONE));
      assert WeighAll(Best(s, Some(LONE)), [], 0.0) == Best(s, Some(LONE));
    }
    var g := Visit(f, 1, 0.0, false);
    assert VisitAll(f, [1], 0.0, false) == g by { assert [1][1..] == [] && VisitAll(g, [], 0.0, false) == g; }
    assert VisitAll(f, s.names, 0.0, false) == g && g.s == s && g.ready == [1];
    assert Chosen(g) == Some(LONE) && Probed(s, 7) == s;
  }

  lemma LoneTaken(s: Scheduler, id: SelectionId)
    requires id in s.selections && !s.selections[id].reserved && s.selections[id].serial == s.serial
    requires s.pending == None && s.nextGlobal <= 0.0 && DueOf(s, s.selections[id]) <= 0.0
    ensures Reservable(s, id, 0.0)
  {
  }

  /**
    Theorem: acknowledging in time is needed. A run in which a probe is released before its start is acknowledged can
    start two probes at the same instant, however the starts are dated.
  */
  lemma LateStartsMeet()
    ensures DatedRun(START, LATE) && !PromptRun(START, LATE)
    ensures After(START, LATE).starts == [Start(0.0, 0, 1), Start(0.0, 0, 2)]
  {
    hide Next;
    hide UpTo;
    hide Others;
    hide Reservable;
    var s1 := Step(START, LATE[0]);
    assert s1 ==
           START.(names := [1], groups := map[1 := [[LONE]]], probes := map[7 := 0], heap := map[0 := Probe(0, 0.0)],
                  order := [7], nextProbe := 1) by {
      assert ProbedAll(START, [7]) == ProbedAll(Probed(START, 7), [7][1..]) == Probed(START, 7);
    }
    LoneChoice(s1);
    var s2 := Step(s1, LATE[1]);
    LoneTaken(s2, 0);
    var s3 := Step(s2, LATE[2]);
    var s4 := Step(s3, LATE[3]);
    LoneChoice(s4);
    var s5 := Step(s4, LATE[4]);
    LoneTaken(s5, 1);
    var s6 := Step(s5, LATE[5]);
    var s7 := Step(s6, LATE[6]);
    var s8 := Step(s7, LATE[7]);
    assert s3.pending == Some(0) && s4.pending == None && s6.pending == Some(1) && s7.pending == None;
    assert s7.starts == [Start(0.0, 0, 1)] && s8.starts == [Start(0.0, 0, 1), Start(0.0, 0, 2)];
    Unfold(START, LATE, s8, s1, s2, s3, s4, s5, s6, s7);
  }

  /** A run of eight calls, call by call. */
  lemma Unfold(s0: Scheduler, calls: seq<Call>, s8: Scheduler, s1: Scheduler, s2: Scheduler, s3: Scheduler,
               s4: Scheduler, s5: Scheduler, s6: Scheduler, s7: Scheduler)
    requires calls == LATE && s1 == Step(s0, calls[0]) && s2 == Step(s1, calls[1]) && s3 == Step(s2, calls[2]) &&
             s4 == Step(s3, calls[3])
    requires s5 == Step(s4, calls[4]) && s6 == Step(s5, calls[5]) && s7 == Step(s6, calls[6]) &&
             s8 == Step(s7, calls[7])
    requires Dated(s6, calls[6]) && Dated(s7, calls[7]) && !Prompt(s7, calls[7])
    ensures After(s0, calls) == s8 && DatedRun(s0, calls) && !PromptRun(s0, calls)
  {
    hide Step;
    hide Prompt;
    hide Starts;
    AfterFirst(s7, calls[7..]);
    AfterFirst(s6, calls[6..]);
    AfterFirst(s5, calls[5..]);
    AfterFirst(s4, calls[4..]);
    AfterFirst(s3, calls[3..]);
    AfterFirst(s2, calls[2..]);
    AfterFirst(s1, calls[1..]);
    AfterFirst(s0, calls);
  }

  lemma AfterFirst(s: Scheduler, calls: seq<Call>)
    requires calls != []
    ensures After(s, calls) == After(Step(s, calls[0]), calls[1..])
    ensures |calls| == 1 ==> After(s, calls) == Step(s, calls[0])
    ensures PromptRun(s, calls) <==> Prompt(s, calls[0]) && PromptRun(Step(s, calls[0]), calls[1..])
    ensures !calls[0].Confirm? || Dated(s, calls[0]) ==> DatedRun(s, calls) == DatedRun(Step(s, calls[0]), calls[1..])
    ensures |calls| == 1 && Dated(s, calls[0]) ==> DatedRun(s, calls)
  {
  }
}
