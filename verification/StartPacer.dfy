/**
  The pacer of the mobile start limiter: a shared cadence and a rolling ceiling
  on the starts of the last second, kept in a ring of one hundred instants.
  Times are whole nanoseconds.
*/
module StartPacing {
  const SECOND: int := 1_000_000_000
  const SLOTS: nat := 100

  function Max(a: int, b: int): int {
    if a >= b then a else b
  }

  /** The pacer with its whole history instead of the ring. */
  datatype Pace = Pace(rate: int, initialized: bool, next: int, last: int, starts: seq<int>)

  function Interval(rate: int): int
    requires rate > 0
  {
    (SECOND + rate - 1) / rate
  }

  predicate Sorted(h: seq<int>) {
    forall i, k :: 0 <= i < k < |h| ==> h[i] <= h[k]
  }

  /** How many of the last starts are less than a second old. */
  function Recent(h: seq<int>, now: int): (n: nat)
    ensures n <= |h|
  {
    if h == [] || h[|h| - 1] + SECOND <= now then 0 else 1 + Recent(h[..|h| - 1], now)
  }

  /** In a sorted history these are exactly the starts of the last second. */
  lemma {:induction false} RecentExact(h: seq<int>, now: int)
    requires Sorted(h)
    ensures forall i :: 0 <= i < |h| ==> (i >= |h| - Recent(h, now) <==> h[i] + SECOND > now)
  {
    if h != [] && h[|h| - 1] + SECOND > now {
      RecentExact(h[..|h| - 1], now);
    }
  }

  /** The number of starts less than a second old is determined by where they begin. */
  lemma RecentFrom(h: seq<int>, now: int, k: nat)
    requires Sorted(h) && k <= |h|
    requires forall i :: 0 <= i < |h| ==> (i >= k <==> h[i] + SECOND > now)
    ensures Recent(h, now) == |h| - k
  {
    RecentExact(h, now);
  }

  // -----------------------------------------------------------------
  // The operations
  // -----------------------------------------------------------------

  function ReadyAt(p: Pace, now: int): int {
    var base := if p.initialized then p.next else now;
    if Recent(p.starts, now) >= p.rate &&
    0 < p.rate <= |p.starts| then Max(base, p.starts[|p.starts| - p.rate] + SECOND) else base
  }

  function Recorded(p: Pace, now: int): Pace
    requires p.rate > 0
  {
    Pace(p.rate, true, if p.initialized then Max(p.next + Interval(p.rate), now - SECOND) else now + Interval(p.rate),
         now, p.starts + [now])
  }

  function Resumed(p: Pace, now: int): Pace {
    if p.initialized then p.(next := Max(p.next, now)) else p
  }

  function Retuned(p: Pace, rate: int): Pace
    requires rate > 0
  {
    if p.rate == rate then p
    else p.(rate := rate, next := if p.initialized then p.last + Interval(rate) else p.next)
  }

  /** A start passes the check at one instant and is recorded at another, while the limiter is locked. */
  datatype Op = Start(checked: int, recorded: int) | Resume(now: int) | SetRate(rate: int)

  /** The instant up to which the clock has gone. */
  ghost predicate Passes(p: Pace, clock: int, op: Op) {
    match op
    case Start(checked, recorded) => clock <= checked <= recorded && ReadyAt(p, checked) <= checked
    case Resume(now) => clock <= now
    case SetRate(rate) => 1 <= rate <= SLOTS
  }

  function After(p: Pace, op: Op): Pace
    requires p.rate > 0 && (op.SetRate? ==> op.rate > 0)
  {
    match op
    case Start(_, recorded) => Recorded(p, recorded)
    case Resume(now) => Resumed(p, now)
    case SetRate(rate) => Retuned(p, rate)
  }

  function Clock(clock: int, op: Op): int {
    match op
    case Start(_, recorded) => recorded
    case Resume(now) => now
    case SetRate(_) => clock
  }

  /** What holds of a pacer at every time. */
  ghost predicate Sane(p: Pace, clock: int) {
    1 <= p.rate <= SLOTS && Sorted(p.starts) && (forall i :: 0 <= i < |p.starts| ==> p.starts[i] <= clock) &&
    (forall k :: 0 <= k < |p.starts| ==> Recent(p.starts[..k + 1], p.starts[k]) <= SLOTS)
  }

  /** A check that passes leaves room below the ceiling. */
  lemma ReadyMeansRoom(p: Pace, now: int)
    requires p.rate > 0 && Sorted(p.starts) && ReadyAt(p, now) <= now
    ensures Recent(p.starts, now) < p.rate
  {
    RecentExact(p.starts, now);
  }

  lemma {:induction false} RecentShrinks(h: seq<int>, now: int, later: int)
    requires now <= later
    ensures Recent(h, later) <= Recent(h, now)
  {
    if h != [] && h[|h| - 1] + SECOND > later { RecentShrinks(h[..|h| - 1], now, later); }
  }

  /** Recording adds the new start to those of the last second. */
  lemma RecentRecorded(h: seq<int>, now: int)
    ensures Recent(h + [now], now) == Recent(h, now) + 1
  {
    assert (h + [now])[..|h|] == h;
  }

  lemma StepSane(p: Pace, clock: int, op: Op)
    requires Sane(p, clock) && Passes(p, clock, op)
    ensures Sane(After(p, op), Clock(clock, op))
    ensures op.Start? ==> Recent(After(p, op).starts, op.recorded) <= p.rate
  {
    match op {
      case Start(checked, recorded) =>
        ReadyMeansRoom(p, checked);
        RecentShrinks(p.starts, checked, recorded);
        RecentRecorded(p.starts, recorded);
        var h := p.starts + [recorded];
        forall k | 0 <= k < |h| ensures Recent(h[..k + 1], h[k]) <= SLOTS {
          if k < |p.starts| { assert h[..k + 1] == p.starts[..k + 1]; } else { assert h[..k + 1] == h; }
        }
      case Resume(_) =>
      case SetRate(_) =>
    }
  }

  /** The states of a run of operations. */
  ghost predicate PacedRun(p: Pace, clock: int, ops: seq<Op>)
    decreases |ops|
  {
    ops == [] || (p.rate > 0 && Passes(p, clock, ops[0]) && PacedRun(After(p, ops[0]), Clock(clock, ops[0]), ops[1..]))
  }

  ghost function StateAt(p: Pace, clock: int, ops: seq<Op>, k: nat): Pace
    requires PacedRun(p, clock, ops) && k <= |ops|
    decreases |ops|
  {
    if k == 0 then p else StateAt(After(p, ops[0]), Clock(clock, ops[0]), ops[1..], k - 1)
  }

  /**
    Theorem: in every run, whatever the rate changes and pauses, a recorded start
    is at most the rate-th start of the second that ends with it.
  */
  lemma {:induction false} CeilingHolds(p: Pace, clock: int, ops: seq<Op>, k: nat)
    requires Sane(p, clock) && PacedRun(p, clock, ops) && k < |ops| && ops[k].Start?
    ensures var before, after := StateAt(p, clock, ops, k), StateAt(p, clock, ops, k + 1);
      after.starts == before.starts + [ops[k].recorded] && Recent(after.starts, ops[k].recorded) <= before.rate
    decreases |ops|
  {
    StepSane(p, clock, ops[0]);
    if k > 0 {
      CeilingHolds(After(p, ops[0]), Clock(clock, ops[0]), ops[1..], k - 1);
    }
  }

  // -----------------------------------------------------------------
  // The ring
  // -----------------------------------------------------------------

  /** What a ring holds: the newest starts; whatever it has dropped is a second old. */
  ghost predicate Keeps(window: seq<int>, starts: seq<int>, clock: int) {
    |window| <= |starts| && Sorted(starts) && (forall i :: 0 <= i < |starts| ==> starts[i] <= clock) &&
    window == starts[|starts| - |window|..] &&
    forall i :: 0 <= i < |starts| - |window| ==> starts[i] + SECOND <= clock
  }

  lemma KeepsForgetting(window: seq<int>, starts: seq<int>, clock: int)
    requires Keeps(window, starts, clock) && window != [] && window[0] + SECOND <= clock
    ensures Keeps(window[1..], starts, clock)
  {
    var k := |starts| - |window|;
    assert window[0] == starts[k];
    assert window[1..] == starts[k + 1..];
  }

  lemma KeepsRecorded(window: seq<int>, starts: seq<int>, clock: int, now: int)
    requires Keeps(window, starts, clock) && clock <= now
    ensures Keeps(window + [now], starts + [now], now)
  {
    var k := |starts| - |window|;
    assert (starts + [now])[k..] == starts[k..] + [now];
  }

  lemma KeepsLater(window: seq<int>, starts: seq<int>, clock: int, now: int)
    requires Keeps(window, starts, clock) && clock <= now
    ensures Keeps(window, starts, now)
  {
  }

  lemma KeepsNewest(window: seq<int>, starts: seq<int>, clock: int, n: nat)
    requires Keeps(window, starts, clock) && 0 < n <= |window|
    ensures n <= |starts| && window[|window| - n] == starts[|starts| - n]
  {
  }

  /** A ring whose oldest entry is recent holds exactly the recent starts. */
  lemma KeepsRecent(window: seq<int>, starts: seq<int>, now: int)
    requires Keeps(window, starts, now) && (window == [] || window[0] + SECOND > now)
    ensures |window| == Recent(starts, now)
  {
    var k := |starts| - |window|;
    if window != [] { assert window[0] == starts[k]; }
    RecentFrom(starts, now, k);
  }

  class StartPacer {
    var rate: int
    var initialized: bool
    var next: int
    var last: int
    const ring: array<int>
    var first: nat
    var count: nat
    ghost var starts: seq<int>
    ghost var clock: int

    /** The instants in the ring, oldest first. */
    ghost function Window(): (w: seq<int>)
      reads this`first, this`count, ring
      requires ring.Length == SLOTS
      ensures |w| == count
    {
      var from := first;
      seq(count, i requires 0 <= i reads ring => ring[Slot(from, i)])
    }

    ghost predicate Valid()
      reads this, ring
    {
      ring.Length == SLOTS && first < SLOTS && count <= SLOTS && 1 <= rate <= SLOTS && (initialized || starts == []) &&
      Keeps(Window(), starts, clock)
    }

    ghost function State(): Pace
      reads this
    {
      Pace(rate, initialized, next, last, starts)
    }

    constructor (value: int)
      requires 1 <= value <= SLOTS
      ensures Valid() && State() == Pace(value, false, 0, 0, []) && clock == 0
      ensures fresh(ring)
    {
      rate, initialized, next, last := value, false, 0, 0;
      ring := new int[SLOTS](_ => 0);
      first, count, starts, clock := 0, 0, [], 0;
    }

    /** Drop the oldest entry of the ring. */
    method Forget()
      requires ring.Length == SLOTS && first < SLOTS && 0 < count <= SLOTS
      modifies this`first, this`count
      ensures first < SLOTS && count == old(count) - 1 && Window() == old(Window())[1..]
    {
      hide Slot;
      ghost var w, was := Window(), first;
      first := (first + 1) % SLOTS;
      count := count - 1;
      forall i | 0 <= i < count ensures Slot(first, i) == Slot(was, i + 1) { NextSlot(was, i); }
      assert Window() == w[1..];
    }

    /** Forget starts that are a second old. */
    method Expire(now: int)
      requires Valid() && clock <= now
      modifies this`first, this`count, this`clock
      ensures Valid() && clock == now && count == Recent(starts, now) <= old(count)
    {
      hide Recent;
      hide Slot;
      hide Keeps;
      KeepsLater(Window(), starts, clock, now);
      SlotZero(first);
      while count > 0 && ring[first] + SECOND <= now
        invariant first < SLOTS && count <= old(count) && clock == old(clock) && Slot(first, 0) == first
        invariant Keeps(Window(), starts, now)
        decreases count
      {
        assert Window()[0] == ring[first];
        KeepsForgetting(Window(), starts, now);
        Forget();
        SlotZero(first);
      }
      if count > 0 { assert Window()[0] == ring[first]; }
      KeepsRecent(Window(), starts, now);
      clock := now;
    }

    /** When the next start may go: the cadence, and the start that must first be a second old. */
    method Ready(now: int) returns (ready: int)
      requires Valid() && clock <= now
      modifies this`first, this`count, this`clock
      ensures Valid() && clock == now && count == Recent(starts, now)
      ensures ready == ReadyAt(State(), now)
    {
      hide Slot;
      hide Keeps;
      hide Recent;
      Expire(now);
      ready := if initialized then next else now;
      if count >= rate {
        KeepsNewest(Window(), starts, clock, rate);
        assert Window()[count - rate] == ring[Slot(first, count - rate)];
        SlotIs(first, count - rate);
        ready := Max(ready, ring[(first + count - rate) % SLOTS] + SECOND);
      }
    }

    /** Put an instant into the first free slot. */
    method Store(now: int)
      requires ring.Length == SLOTS && first < SLOTS && count < SLOTS
      modifies this`count, ring
      ensures count == old(count) + 1 && Window() == old(Window()) + [now]
    {
      hide Slot;
      ghost var w := Window();
      var slot := Slot(first, count);
      OthersApart(first, count);
      ring[slot] := now;
      count := count + 1;
      assert Window() == w + [now];
    }

    /** Put a start into the ring, which has a free slot for it. */
    method Admit(now: int)
      requires ring.Length == SLOTS && first < SLOTS && count < SLOTS && Keeps(Window(), starts, now)
      modifies this`count, this`starts, ring
      ensures count == old(count) + 1 && starts == old(starts) + [now] && Keeps(Window(), starts, now)
    {
      hide Slot;
      hide Keeps;
      hide Window;
      KeepsRecorded(Window(), starts, now, now);
      Store(now);
      starts := starts + [now];
    }

    /** Record a start that passed the check. The slot it takes is free. */
    method Record(now: int)
      requires Valid() && clock <= now && Recent(starts, now) < rate
      modifies this, ring
      ensures Valid() && clock == now && State() == Recorded(old(State()), now)
      ensures count == Recent(starts, now) <= rate
    {
      hide Recent;
      hide Slot;
      hide Keeps;
      hide Max;
      hide Interval;
      hide Window;
      Expire(now);
      RecentRecorded(starts, now);
      next := if initialized then Max(next + Interval(rate), now - SECOND) else now + Interval(rate);
      initialized, last := true, now;
      Admit(now);
    }

    method ResumeAt(now: int)
      requires Valid()
      modifies this`next
      ensures Valid() && State() == Resumed(old(State()), now)
    {
      hide Keeps;
      hide Window;
      if initialized { next := Max(next, now); }
    }

    method ChangeRate(value: int)
      requires Valid() && 1 <= value <= SLOTS
      modifies this`rate, this`next
      ensures Valid() && State() == Retuned(old(State()), value)
    {
      hide Keeps;
      hide Window;
      hide Interval;
      if rate == value { return; }
      rate := value;
      if initialized { next := last + Interval(rate); }
    }
  }

  lemma OthersApart(first: nat, k: nat)
    requires first < SLOTS && k < SLOTS
    ensures forall i {:trigger Slot(first, i)} :: 0 <= i < k ==> Slot(first, i) != Slot(first, k)
  {
    forall i | 0 <= i < k ensures Slot(first, i) != Slot(first, k) { Apart(first, i, k); }
  }

  /** The slot of the i-th entry of the ring. */
  function Slot(first: nat, i: nat): (slot: nat)
    ensures slot < SLOTS
  {
    (first + i) % SLOTS
  }

  lemma SlotZero(first: nat)
    requires first < SLOTS
    ensures Slot(first, 0) == first
  {
  }

  lemma SlotIs(first: nat, i: nat)
    ensures Slot(first, i) == (first + i) % SLOTS
  {
  }

  lemma NextSlot(first: nat, i: nat)
    ensures Slot((first + 1) % SLOTS, i) == Slot(first, i + 1)
  {
  }

  /** Two places of the ring are different slots. */
  lemma Apart(first: nat, i: nat, k: nat)
    requires first < SLOTS && i < k < SLOTS
    ensures Slot(first, i) != Slot(first, k)
  {
  }
}
