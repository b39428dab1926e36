/** Exactly when acknowledged probe starts keep apart: every one has to find the gate passed, and its own probe due. */
module SchedulerGate {
  import opened SchedulerSteps
  import opened SchedulerProbes
  import opened SchedulerPacing

  predicate Spaced(starts: seq<Start>) {
    forall i, k :: 0 <= i < k < |starts| ==> starts[i].time + 0.25 <= starts[k].time
  }

  /** Where the starts have pushed the gate. */
  function GateOf(starts: seq<Start>): real {
    if starts == [] then 0.0 else MaxTime(GateOf(starts[..|starts| - 1]), starts[|starts| - 1].time + 0.25)
  }

  lemma {:induction false} GateBehind(starts: seq<Start>, i: nat)
    requires i < |starts|
    ensures starts[i].time + 0.25 <= GateOf(starts)
  {
    if i < |starts| - 1 { GateBehind(starts[..|starts| - 1], i); }
  }

  /** A gate that is not at the beginning was pushed by some start. */
  lemma {:induction false} GatePusher(starts: seq<Start>) returns (i: nat)
    requires GateOf(starts) > 0.0
    ensures i < |starts| && starts[i].time + 0.25 == GateOf(starts)
  {
    var n := |starts| - 1;
    if starts[n].time + 0.25 >= GateOf(starts[..n]) {
      i := n;
    } else {
      i := GatePusher(starts[..n]);
    }
  }

  lemma SpacedMore(starts: seq<Start>, x: Start)
    requires x.time >= 0.0
    ensures Spaced(starts + [x]) <==> Spaced(starts) && x.time >= GateOf(starts)
    ensures GateOf(starts + [x]) == MaxTime(GateOf(starts), x.time + 0.25)
  {
    hide GateOf;
    var more := starts + [x];
    assert GateOf(more) == MaxTime(GateOf(starts), x.time + 0.25) by { GateMore(starts, x); }
    if Spaced(more) {
      forall i, k | 0 <= i < k < |starts| ensures starts[i].time + 0.25 <= starts[k].time {
        assert more[i] == starts[i] && more[k] == starts[k];
      }
      if GateOf(starts) > 0.0 {
        var i := GatePusher(starts);
        assert more[i] == starts[i] && more[|starts|] == x;
      }
    }
    if Spaced(starts) && x.time >= GateOf(starts) {
      forall i | 0 <= i < |starts| ensures starts[i].time + 0.25 <= x.time { GateBehind(starts, i); }
    }
  }

  lemma GateMore(starts: seq<Start>, x: Start)
    ensures GateOf(starts + [x]) == MaxTime(GateOf(starts), x.time + 0.25)
  {
    assert (starts + [x])[..|starts|] == starts;
  }

  /** Starts of one probe keep the distance that their numbers ask for. */
  predicate Paced(starts: seq<Start>) {
    forall i, k :: 0 <= i < k < |starts| && starts[i].probe == starts[k].probe ==>
      starts[i].time + Distance(starts[i].number) <= starts[k].time
  }

  /** How far the starts of a probe have pushed it. */
  function DueAfter(starts: seq<Start>, probe: ProbeId): real {
    if starts == [] then 0.0
    else
      var x, due := starts[|starts| - 1], DueAfter(starts[..|starts| - 1], probe);
      if x.probe == probe then MaxTime(due, x.time + Distance(x.number)) else due
  }

  lemma {:induction false} DueBehind(starts: seq<Start>, i: nat)
    requires i < |starts|
    ensures starts[i].time + Distance(starts[i].number) <= DueAfter(starts, starts[i].probe)
  {
    hide Distance;
    if i < |starts| - 1 { DueBehind(starts[..|starts| - 1], i); }
  }

  /** A probe that is not due from the beginning was pushed by one of its starts. */
  lemma {:induction false} DuePusher(starts: seq<Start>, probe: ProbeId) returns (i: nat)
    requires DueAfter(starts, probe) > 0.0
    ensures i < |starts| && starts[i].probe == probe &&
            starts[i].time + Distance(starts[i].number) == DueAfter(starts, probe)
  {
    hide Distance;
    var n := |starts| - 1;
    if starts[n].probe == probe && starts[n].time + Distance(starts[n].number) >= DueAfter(starts[..n], probe) {
      i := n;
    } else {
      i := DuePusher(starts[..n], probe);
    }
  }

  lemma DueMore(starts: seq<Start>, x: Start, probe: ProbeId)
    ensures DueAfter(starts + [x], probe) ==
            if x.probe == probe
            then MaxTime(DueAfter(starts, probe), x.time + Distance(x.number)) else DueAfter(starts, probe)
  {
    assert (starts + [x])[..|starts|] == starts;
  }

  lemma {:induction false} NeverDue(starts: seq<Start>, probe: ProbeId)
    requires forall i :: 0 <= i < |starts| ==> starts[i].probe != probe
    ensures DueAfter(starts, probe) == 0.0
  {
    if starts != [] { NeverDue(starts[..|starts| - 1], probe); }
  }

  lemma PacedMore(starts: seq<Start>, x: Start)
    requires x.time >= 0.0
    ensures Paced(starts + [x]) <==> Paced(starts) && x.time >= DueAfter(starts, x.probe)
  {
    hide DueAfter;
    hide Distance;
    var more := starts + [x];
    if Paced(more) {
      forall i, k | 0 <= i < k < |starts| && starts[i].probe == starts[k].probe
        ensures starts[i].time + Distance(starts[i].number) <= starts[k].time
      {
        assert more[i] == starts[i] && more[k] == starts[k];
      }
      if DueAfter(starts, x.probe) > 0.0 {
        var i := DuePusher(starts, x.probe);
        assert more[i] == starts[i] && more[|starts|] == x;
      }
    }
    if Paced(starts) && x.time >= DueAfter(starts, x.probe) {
      forall i | 0 <= i < |starts| && starts[i].probe == x.probe
        ensures starts[i].time + Distance(starts[i].number) <= x.time
      {
        DueBehind(starts, i);
      }
    }
  }

  // -----------------------------------------------------------------
  // What every call keeps
  // -----------------------------------------------------------------

  /** A start that finds the gate passed; a caller can see that. */
  predicate OnTime(s: Scheduler, call: Call) {
    Starts(s, call) ==> call.now >= s.nextGlobal
  }

  /** A start that finds its probe due. */
  predicate WhenDue(s: Scheduler, call: Call) {
    Starts(s, call) ==> call.now >= DueOf(s, s.selections[call.id])
  }

  predicate OnTimeRun(s: Scheduler, calls: seq<Call>)
    decreases |calls|
  {
    calls == [] || (OnTime(s, calls[0]) && OnTimeRun(Step(s, calls[0]), calls[1..]))
  }

  predicate WhenDueRun(s: Scheduler, calls: seq<Call>)
    decreases |calls|
  {
    calls == [] || (WhenDue(s, calls[0]) && WhenDueRun(Step(s, calls[0]), calls[1..]))
  }

  /** Clocks begin at zero. */
  predicate Counted(call: Call) {
    call.Confirm? ==> call.now >= 0.0
  }

  /** The gate and the probes are exactly where the starts have pushed them. */
  ghost predicate Pushed(s: Scheduler) {
    s.nextGlobal == GateOf(s.starts) && forall id :: id in s.heap ==> s.heap[id].nextDue == DueAfter(s.starts, id)
  }

  ghost predicate Exact(s: Scheduler) {
    ProbesOk(s) && NumbersOk(s) && Pushed(s)
  }

  lemma GrownExact(s: Scheduler, t: Scheduler)
    requires Exact(s) && ProbesOk(t) && Grown(s, t)
    ensures Exact(t)
  {
    hide ProbesOk;
    hide CountOf;
    hide UpTo;
    hide DueAfter;
    hide GateOf;
    forall id | id in t.heap
      ensures t.heap[id].starts == UpTo(CountOf(t.starts, id)) && t.heap[id].nextDue == DueAfter(t.starts, id)
    {
      if id !in s.heap {
        NeverStarted(s.starts, id);
        NeverDue(s.starts, id);
        assert UpTo(0) == 0 by { Few(); }
      }
    }
  }

  lemma Few()
    ensures UpTo(0) == 0
  {
  }

  lemma SameExact(s: Scheduler, t: Scheduler)
    requires Exact(s) && t.order == s.order && t.probes == s.probes && t.heap == s.heap
    requires t.nextProbe == s.nextProbe && t.starts == s.starts && t.nextGlobal == s.nextGlobal
    ensures Exact(t)
  {
    hide CountOf;
    hide DueAfter;
    hide GateOf;
  }

  /** What a call does to the starts, the gate and the probes. */
  lemma StepExact(s: Scheduler, call: Call)
    requires Exact(s) && Counted(call)
    ensures Exact(Step(s, call))
    ensures Spaced(Step(s, call).starts) <==> Spaced(s.starts) && OnTime(s, call)
    ensures Paced(Step(s, call).starts) <==> Paced(s.starts) && WhenDue(s, call)
  {
    hide Exact;
    hide Spaced;
    hide Paced;
    hide Next;
    hide Others;
    assert ProbesOk(s) by { ExactProbes(s); }
    hide ProbesOk;
    match call {
      case Choose(now, prepared) =>
        var t := NextChanges(s, now, prepared);
        GrownExact(s, t);
        SameExact(t, Next(s, now, prepared));
      case Take(id, time) => SameExact(s, Reserve(s, id, time));
      case Confirm(id, now) => ConfirmExact(s, id, now);
      case Drop(id) => SameExact(s, Release(s, id));
      case Rows(admitted, names, groups) =>
        ProbedAllOk(s, admitted);
        GrownExact(s, ProbedAll(s, admitted));
        SameExact(ProbedAll(s, admitted), Rebuild(s, admitted, names, groups));
      case Forget => SameExact(s, Clear(s));
    }
  }

  lemma ExactProbes(s: Scheduler)
    requires Exact(s)
    ensures ProbesOk(s)
  {
  }

  lemma ConfirmExact(s: Scheduler, id: SelectionId, now: real)
    requires Exact(s) && now >= 0.0
    ensures var t, call := Acknowledge(s, id, now), Confirm(id, now);
            Exact(t) && (Spaced(t.starts) <==> Spaced(s.starts) && OnTime(s, call)) &&
            (Paced(t.starts) <==> Paced(s.starts) && WhenDue(s, call))
  {
    hide Exact;
    hide Spaced;
    hide Paced;
    hide Started;
    var t := Acknowledge(s, id, now);
    if Starts(s, Confirm(id, now)) {
      var c := s.selections[id];
      var u := s.(selections := s.selections[id := c.(committed := true)]);
      SameExact(s, u);
      StartExact(u, c.entry.policy, c.probe.value, now);
      SameExact(Started(u, c.entry.policy, c.probe.value, now), t);
    } else {
      SameExact(s, t);
    }
  }

  lemma SameGap(n: nat)
    ensures Gap(n) == Distance(n)
  {
  }

  lemma StartExact(s: Scheduler, policy: Policy, probe: ProbeId, now: real)
    requires Exact(s) && probe in s.heap && now >= 0.0
    ensures var u := Started(s, policy, probe, now);
            Exact(u) && (Spaced(u.starts) <==> Spaced(s.starts) && now >= s.nextGlobal) &&
            (Paced(u.starts) <==> Paced(s.starts) && now >= s.heap[probe].nextDue)
  {
    hide ProbesOk;
    hide NumbersOk;
    hide GateOf;
    hide DueAfter;
    hide Spaced;
    hide Paced;
    hide Others;
    var u := Started(s, policy, probe, now);
    SameGap(u.starts[|s.starts|].number);
    hide Gap;
    hide Distance;
    var x := u.starts[|s.starts|];
    StartedOk(s, policy, probe, now);
    StartNumbers(s, u, probe, u.heap[probe], now);
    SpacedMore(s.starts, x);
    PacedMore(s.starts, x);
    forall id | id in u.heap ensures u.heap[id].nextDue == DueAfter(u.starts, id) { DueMore(s.starts, x, id); }
  }

  // -----------------------------------------------------------------
  // Runs
  // -----------------------------------------------------------------

  lemma {:induction false} RunExact(s: Scheduler, calls: seq<Call>)
    requires Exact(s) && forall i :: 0 <= i < |calls| ==> Counted(calls[i])
    ensures Exact(After(s, calls))
    ensures Spaced(After(s, calls).starts) <==> Spaced(s.starts) && OnTimeRun(s, calls)
    ensures Paced(After(s, calls).starts) <==> Paced(s.starts) && WhenDueRun(s, calls)
    decreases |calls|
  {
    hide Exact;
    hide Spaced;
    hide Paced;
    hide Step;
    hide OnTime;
    hide WhenDue;
    hide Counted;
    if calls != [] {
      StepExact(s, calls[0]);
      assert forall i :: 0 <= i < |calls[1..]| ==> calls[1..][i] == calls[i + 1];
      RunExact(Step(s, calls[0]), calls[1..]);
    }
  }

  /**
    Theorem: in every run, whatever its clocks show and however late or early starts are acknowledged, acknowledged
    starts are a quarter of a second apart exactly if every one of them finds the gate passed; and those of one probe
    keep the distance of their numbers exactly if every one finds its probe due. Numbers count starts up to the limit.
  */
  lemma ApartExactly(calls: seq<Call>)
    requires forall i :: 0 <= i < |calls| ==> Counted(calls[i])
    ensures Spaced(After(START, calls).starts) <==> OnTimeRun(START, calls)
    ensures Paced(After(START, calls).starts) <==> WhenDueRun(START, calls)
    ensures var starts := After(START, calls).starts;
            forall i :: 0 <= i < |starts| ==>
              var n := CountOf(starts[..i + 1], starts[i].probe); starts[i].number == if n < 32 then n else 32
  {
    hide After;
    assert Exact(START);
    RunExact(START, calls);
  }

  /**
    Corollary: starts that are acknowledged while their probe is pending, and dated no earlier than it was reserved,
    always find the gate passed and their probe due.
  */
  lemma PromptIsOnTime(calls: seq<Call>)
    requires PromptRun(START, calls) && DatedRun(START, calls)
    ensures OnTimeRun(START, calls) && WhenDueRun(START, calls)
  {
    assert Sound(START);
    SoundIsOnTime(START, calls);
  }

  lemma SoundStart(s: Scheduler, call: Call)
    requires Sound(s) && Prompt(s, call) && Dated(s, call)
    ensures OnTime(s, call) && WhenDue(s, call)
  {
    hide ProbesOk;
    hide NumbersOk;
    hide DueOf;
  }

  lemma {:induction false} SoundIsOnTime(s: Scheduler, calls: seq<Call>)
    requires Sound(s) && PromptRun(s, calls) && DatedRun(s, calls)
    ensures OnTimeRun(s, calls) && WhenDueRun(s, calls)
    decreases |calls|
  {
    hide Sound;
    hide Step;
    hide Prompt;
    hide Dated;
    hide OnTime;
    hide WhenDue;
    if calls != [] {
      SoundStart(s, calls[0]);
      StepSound(s, calls[0]);
      SoundIsOnTime(Step(s, calls[0]), calls[1..]);
    }
  }
}
