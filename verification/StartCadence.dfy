/**
  The cadence of the mobile limiter, in terms of the rate and of a second of 10^9 nanoseconds: when a check passes after
  a start, and what starts add up to over runs.
*/
module StartCadence {
  import opened StartPacing

  /** The fewest nanoseconds in which a rate earns one start. */
  predicate Earns(n: int, rate: int) {
    rate * n >= 1_000_000_000 && rate * (n - 1) < 1_000_000_000
  }

  lemma IntervalEarns(rate: int)
    requires rate > 0
    ensures Earns(Interval(rate), rate)
  {
    var n := Interval(rate);
    var x := SECOND + rate - 1;
    assert x == rate * (x / rate) + x % rate;
    assert rate * (n - 1) == rate * n - rate by { Distribute(rate, n); }
  }

  lemma Distribute(a: int, n: int)
    ensures a * (n - 1) == a * n - a
  {
  }

  /** A time is long enough for a start exactly if it is no shorter than that. */
  lemma EarnedIff(n: int, rate: int, x: int)
    requires rate > 0 && Earns(n, rate)
    ensures x >= n <==> rate * x >= 1_000_000_000
  {
    if x >= n { Grows(rate, n, x); } else { Grows(rate, x, n - 1); }
  }

  lemma Grows(a: int, x: int, y: int)
    requires a > 0 && x <= y
    ensures a * x <= a * y
  {
    assert a * y - a * x == a * (y - x);
    assert a * (y - x) >= 0;
  }

  // -----------------------------------------------------------------
  // When a check passes
  // -----------------------------------------------------------------

  /** The instant from which the next start is paced: the deadline so far, or the first start. */
  function Basis(p: Pace, now: int): int {
    if p.initialized then p.next else now
  }

  /**
    Theorem: after a start at t, which was paced from its basis, the check fails at every later instant u with
    rate * (u - basis) < 10^9; and below the ceiling it passes at all others.
  */
  lemma NextStart(p: Pace, t: int, u: int)
    requires p.rate > 0 && t <= u
    ensures p.rate * (u - Basis(p, t)) < 1_000_000_000 ==> ReadyAt(Recorded(p, t), u) > u
    ensures p.rate * (u - Basis(p, t)) >= 1_000_000_000 && Recent(Recorded(p, t).starts, u) < p.rate ==>
              ReadyAt(Recorded(p, t), u) <= u
  {
    hide Recent;
    hide Interval;
    IntervalEarns(p.rate);
    EarnedIff(Interval(p.rate), p.rate, u - Basis(p, t));
  }

  /** In particular, after a start that was on time: the first one, or one at its deadline. */
  lemma NextOnTime(p: Pace, t: int, u: int)
    requires p.rate > 0 && t <= u && (p.initialized ==> p.next == t)
    ensures p.rate * (u - t) < 1_000_000_000 ==> ReadyAt(Recorded(p, t), u) > u
    ensures p.rate * (u - t) >= 1_000_000_000 && Recent(Recorded(p, t).starts, u) < p.rate ==>
              ReadyAt(Recorded(p, t), u) <= u
  {
    hide Recent;
    hide ReadyAt;
    NextStart(p, t, u);
  }

  /** So is a start as soon as a resume lets it: at the present, or at a deadline that is still ahead. */
  lemma NextAfterResume(p: Pace, now: int, u: int)
    requires p.rate > 0 && p.initialized
    ensures var t := if p.next < now then now else p.next;
            t <= u ==>
              (p.rate * (u - t) < 1_000_000_000 ==> ReadyAt(Recorded(Resumed(p, now), t), u) > u) &&
              (p.rate * (u - t) >= 1_000_000_000 && Recent(Recorded(Resumed(p, now), t).starts, u) < p.rate ==>
                 ReadyAt(Recorded(Resumed(p, now), t), u) <= u)
  {
    hide Recent;
    hide ReadyAt;
    var t := if p.next < now then now else p.next;
    if t <= u { NextOnTime(Resumed(p, now), t, u); }
  }

  /** Theorem: after a change of the rate the next start is paced at the new rate, from the last start. */
  lemma NextAfterChange(p: Pace, rate: int, u: int)
    requires rate > 0 && rate != p.rate && p.initialized
    ensures rate * (u - p.last) < 1_000_000_000 ==> ReadyAt(Retuned(p, rate), u) > u
    ensures rate * (u - p.last) >= 1_000_000_000 && Recent(p.starts, u) < rate ==> ReadyAt(Retuned(p, rate), u) <= u
  {
    hide Recent;
    hide Interval;
    IntervalEarns(rate);
    EarnedIff(Interval(rate), rate, u - p.last);
  }

  // -----------------------------------------------------------------
  // Runs at one rate
  // -----------------------------------------------------------------

  /** How many of the first operations are starts. */
  function Starts(ops: seq<Op>): nat {
    if ops == [] then 0 else Starts(ops[..|ops| - 1]) + if ops[|ops| - 1].Start? then 1 else 0
  }

  ghost predicate OneRate(ops: seq<Op>) {
    forall i :: 0 <= i < |ops| ==> !ops[i].SetRate?
  }

  /** One step of a run. */
  lemma {:induction false} StateNext(p: Pace, clock: int, ops: seq<Op>, k: nat)
    requires PacedRun(p, clock, ops) && k < |ops|
    ensures StateAt(p, clock, ops, k).rate > 0 && (ops[k].SetRate? ==> ops[k].rate > 0)
    ensures StateAt(p, clock, ops, k + 1) == After(StateAt(p, clock, ops, k), ops[k])
    ensures ops[k].Start? ==>
              ReadyAt(StateAt(p, clock, ops, k), ops[k].checked) <= ops[k].checked <= ops[k].recorded
    decreases |ops|
  {
    if k > 0 {
      StateNext(After(p, ops[0]), Clock(clock, ops[0]), ops[1..], k - 1);
    } else {
      assert StateAt(After(p, ops[0]), Clock(clock, ops[0]), ops[1..], 0) == After(p, ops[0]);
    }
  }

  /** Theorem: in every run, what a change of the rate goes back to is the last start. */
  lemma {:induction false} LastIsStart(p: Pace, clock: int, ops: seq<Op>, k: nat, n: nat)
    requires PacedRun(p, clock, ops) && k < n <= |ops|
    requires ops[k].Start? && forall j :: k < j < n ==> !ops[j].Start?
    ensures StateAt(p, clock, ops, n).initialized && StateAt(p, clock, ops, n).last == ops[k].recorded
    decreases n
  {
    StateNext(p, clock, ops, n - 1);
    if k < n - 1 { LastIsStart(p, clock, ops, k, n - 1); }
  }

  lemma StartsNext(ops: seq<Op>, k: nat)
    requires k < |ops|
    ensures Starts(ops[..k + 1]) == Starts(ops[..k]) + if ops[k].Start? then 1 else 0
  {
    assert ops[..k + 1][..k] == ops[..k];
  }

  lemma TimesNext(m: nat, n: int)
    ensures (m + 1) * n == m * n + n
  {
  }

  /** A start that is recorded no later than a second after the deadline that follows it. */
  ghost predicate SteadyAt(p: Pace, clock: int, ops: seq<Op>, n: int, k: nat)
    requires PacedRun(p, clock, ops) && k < |ops|
  {
    ops[k].Start? && ops[k].recorded <= StateAt(p, clock, ops, k).next + n + 1_000_000_000
  }

  /**
    Theorem: the cadence does not drift. While starts come no later than a second after the deadlines that follow them,
    each moves the deadline on by exactly the fewest nanoseconds in which the rate earns a start.
  */
  lemma {:induction false} ExactCadence(p: Pace, clock: int, ops: seq<Op>, n: int, k: nat)
    requires PacedRun(p, clock, ops) && p.initialized && k <= |ops| && Earns(n, p.rate)
    requires forall i :: 0 <= i < k ==> SteadyAt(p, clock, ops, n, i)
    ensures StateAt(p, clock, ops, k).next == p.next + k * n
    ensures StateAt(p, clock, ops, k).rate == p.rate && StateAt(p, clock, ops, k).initialized
  {
    hide ReadyAt;
    if k > 0 {
      ExactCadence(p, clock, ops, n, k - 1);
      assert SteadyAt(p, clock, ops, n, k - 1);
      StateNext(p, clock, ops, k - 1);
      hide PacedRun;
      hide StateAt;
      IntervalEarns(p.rate);
      hide Interval;
      EarnedIff(n, p.rate, Interval(p.rate));
      EarnedIff(Interval(p.rate), p.rate, n);
      TimesNext(k - 1, n);
    }
  }

  /** Every start moves the deadline on by at least that, whatever is late and however often a pause ends. */
  lemma {:induction false} DeadlineGrows(p: Pace, clock: int, ops: seq<Op>, n: int, k: nat)
    requires PacedRun(p, clock, ops) && p.initialized && k <= |ops| && OneRate(ops) && Earns(n, p.rate)
    ensures StateAt(p, clock, ops, k).next >= p.next + Starts(ops[..k]) * n
    ensures StateAt(p, clock, ops, k).rate == p.rate && StateAt(p, clock, ops, k).initialized
  {
    hide ReadyAt;
    if k > 0 {
      DeadlineGrows(p, clock, ops, n, k - 1);
      StateNext(p, clock, ops, k - 1);
      StartsNext(ops, k - 1);
      hide PacedRun;
      hide StateAt;
      hide Starts;
      IntervalEarns(p.rate);
      hide Interval;
      EarnedIff(n, p.rate, Interval(p.rate));
      TimesNext(Starts(ops[..k - 1]), n);
    }
  }

  /**
    Theorem: at one rate the starts of a run never outrun it: the m-th start, counted from 0, comes at least m / rate
    seconds after the deadline with which the run began.
  */
  lemma StartsInTime(p: Pace, clock: int, ops: seq<Op>, k: nat)
    requires PacedRun(p, clock, ops) && p.initialized && p.rate > 0 && k < |ops| && OneRate(ops) && ops[k].Start?
    ensures p.rate * (ops[k].recorded - p.next) >= Starts(ops[..k]) * 1_000_000_000
  {
    var n, m := Interval(p.rate), Starts(ops[..k]);
    IntervalEarns(p.rate);
    DeadlineGrows(p, clock, ops, n, k);
    StateNext(p, clock, ops, k);
    var q := StateAt(p, clock, ops, k);
    assert q.next <= ops[k].checked by { hide Recent; }
    hide PacedRun;
    hide StateAt;
    hide Starts;
    hide Interval;
    hide ReadyAt;
    assert ops[k].recorded - p.next >= m * n;
    Grows(p.rate, m * n, ops[k].recorded - p.next);
    assert p.rate * (m * n) == m * (p.rate * n) by { Swap(p.rate, m, n); }
    assert m * (p.rate * n) >= m * 1_000_000_000 by { if m > 0 { Grows(m, 1_000_000_000, p.rate * n); } }
  }

  lemma Swap(a: int, m: int, n: int)
    ensures a * (m * n) == m * (a * n)
  {
  }

  /**
    Theorem: a pause banks no starts. After a resume at some instant the m-th start, counted from 0, comes at least
    m / rate seconds later.
  */
  lemma PauseBanksNothing(p: Pace, clock: int, ops: seq<Op>, now: int, k: nat)
    requires p.initialized && p.rate > 0 && PacedRun(Resumed(p, now), clock, ops) && k < |ops| && OneRate(ops) &&
             ops[k].Start?
    ensures p.rate * (ops[k].recorded - now) >= Starts(ops[..k]) * 1_000_000_000
  {
    hide PacedRun;
    hide Starts;
    StartsInTime(Resumed(p, now), clock, ops, k);
    Grows(p.rate, ops[k].recorded - Resumed(p, now).next, ops[k].recorded - now);
  }

  /**
    Theorem: at most a second is made up for: the m-th next start after one at t comes at t - 1 s + m / rate or later.
  */
  lemma OneSecondOfDebt(p: Pace, t: int, clock: int, ops: seq<Op>, k: nat)
    requires p.rate > 0 && PacedRun(Recorded(p, t), clock, ops) && k < |ops| && OneRate(ops) && ops[k].Start?
    ensures p.rate * (ops[k].recorded - t + 1_000_000_000) >= Starts(ops[..k]) * 1_000_000_000
  {
    hide PacedRun;
    hide Starts;
    hide Interval;
    IntervalEarns(p.rate);
    EarnedIff(Interval(p.rate), p.rate, 0);
    StartsInTime(Recorded(p, t), clock, ops, k);
    Grows(p.rate, ops[k].recorded - Recorded(p, t).next, ops[k].recorded - t + 1_000_000_000);
  }
}
