/** The window of the mobile scheduler, kept in three parallel arrays. */
module SchedulerWindow {
  import opened Outcomes
  import opened PerformanceHistory
  import opened PerformanceRate

  const MAX_READING: int := 9_007_199_254_740_991

  /** The minute of a clock reading, which is cut to what a double counts exactly; none if it is not finite. */
  function MinuteOfReading(reading: Option<real>, otherwise: int): (m: int)
    requires otherwise >= 0
    ensures m >= 0
    ensures reading.Some? && 0.0 <= reading.value <= MAX_READING as real ==>
      m as real * 60.0 <= reading.value < (m + 1) as real * 60.0
  {
    if reading.None? then otherwise
    else if reading.value <= 0.0 then 0
    else if reading.value >= MAX_READING as real then (MAX_READING as real / 60.0).Floor
    else (reading.value / 60.0).Floor
  }

  class ClaimPerformanceWindow {
    const counts: array<nat>
    const successes: array<nat>
    const seconds: array<real>
    var minute: Option<int>
    var observations: nat
    var connections: nat
    var totalTime: real
    var completed: nat
    ghost var samples: seq<Sample>

    ghost predicate Apart() {
      counts.Length == successes.Length == seconds.Length == BUCKETS && counts != successes
    }

    ghost function Ring(): (ring: seq<Totals>)
      requires Apart()
      reads counts, successes, seconds
      ensures |ring| == BUCKETS
    {
      seq(BUCKETS, k requires 0 <= k < BUCKETS && Apart() reads counts, successes,
          seconds => Totals(counts[k], successes[k], seconds[k]))
    }

    function Shown(): Totals
      reads this
    {
      Totals(observations, connections, totalTime)
    }

    ghost predicate Valid()
      reads this, counts, successes, seconds
    {
      Apart() && completed <= MAX_READING &&
      (minute.None? ==> samples == [] && Shown() == NONE && Ring() == seq(BUCKETS, _ => NONE)) &&
      (minute.Some? ==>
         minute.value >= 0 && RingOf(Ring(), samples, minute.value) &&
         Shown() == Sum(samples, minute.value - 59, minute.value)) &&
      (forall i :: 0 <= i < |samples| ==>
         minute.Some? && 0 <= samples[i].minute <= minute.value && samples[i].seconds >= 0.0)
    }

    constructor ()
      ensures Valid() && minute == None && samples == [] && completed == 0
      ensures fresh(counts) && fresh(successes) && fresh(seconds)
    {
      counts := new nat[BUCKETS](_ => 0);
      successes := new nat[BUCKETS](_ => 0);
      seconds := new real[BUCKETS](_ => 0.0);
      minute, observations, connections, totalTime, completed, samples := None, 0, 0, 0.0, 0, [];
    }

    method ClearSlot(slot: nat)
      requires Apart() && slot < BUCKETS
      modifies counts, successes, seconds
      ensures Ring() == old(Ring())[slot := NONE]
    {
      counts[slot], successes[slot], seconds[slot] := 0, 0, 0.0;
    }

    /** After an hour every slot is cleared. */
    method Restart(current: int)
      requires Apart() && forall i :: 0 <= i < |samples| ==> samples[i].minute <= current - 60
      modifies counts, successes, seconds
      ensures RingOf(Ring(), samples, current)
    {
      hide RingOf;
      hide Sum;
      var slot := 0;
      while slot < BUCKETS
        invariant 0 <= slot <= BUCKETS && forall k :: 0 <= k < slot ==> Ring()[k] == NONE
      {
        ClearSlot(slot);
        slot := slot + 1;
      }
      RingCleared(Ring(), samples, current);
    }

    /** The slots of the minutes that pass are cleared one by one. */
    method Tick(previous: int, current: int)
      requires Apart() && 0 <= previous <= current && RingOf(Ring(), samples, previous)
      requires forall i :: 0 <= i < |samples| ==> samples[i].minute <= previous
      modifies counts, successes, seconds
      ensures RingOf(Ring(), samples, current)
    {
      hide RingOf;
      var last := previous;
      while last < current
        invariant previous <= last <= current && RingOf(Ring(), samples, last)
      {
        RingTick(Ring(), samples, last);
        last := last + 1;
        ClearSlot(last % 60);
      }
    }

    /** The totals are summed again over the slots. */
    method Resum(current: int)
      requires Apart() && RingOf(Ring(), samples, current)
      modifies this`observations, this`connections, this`totalTime
      ensures Shown() == Sum(samples, current - 59, current)
    {
      hide Sum;
      hide MinuteOf;
      observations, connections, totalTime := 0, 0, 0.0;
      var k := 0;
      while k < BUCKETS
        invariant 0 <= k <= BUCKETS && Shown() == SlotSum(samples, current, k)
      {
        assert Ring()[k] == Totals(counts[k], successes[k], seconds[k]);
        observations, connections := observations + counts[k], connections + successes[k];
        totalTime := totalTime + seconds[k];
        k := k + 1;
      }
      SlotsAreWindow(samples, current);
    }

    /** The minute that the window has come to after a reading. */
    function Reached(reading: Option<real>): int
      reads this
      requires minute.Some? ==> minute.value >= 0
    {
      if minute.None? then MinuteOfReading(reading, 0)
      else if minute.value >= MinuteOfReading(reading, minute.value) then minute.value
      else MinuteOfReading(reading, minute.value)
    }

    method Advance(reading: Option<real>)
      requires Valid()
      modifies this`minute, this`observations, this`connections, this`totalTime, counts, successes, seconds
      ensures Valid() && minute == Some(old(Reached(reading)))
      ensures Shown() == Sum(samples, minute.value - 59, minute.value)
    {
      hide RingOf;
      hide Sum;
      var measured := MinuteOfReading(reading, if minute.Some? then minute.value else 0);
      if minute.None? {
        minute := Some(measured);
        RingCleared(Ring(), samples, measured);
        return;
      }
      var previous := minute.value;
      var current := if previous >= measured then previous else measured;
      if previous == current { return; }
      if current - previous >= 60 { Restart(current); } else { Tick(previous, current); }
      Resum(current);
      minute := Some(current);
    }

    /** The rate of the last hour. */
    method Rate(reading: Option<real>) returns (r: real)
      requires Valid()
      modifies this`minute, this`observations, this`connections, this`totalTime, counts, successes, seconds
      ensures Valid() && minute == Some(old(Reached(reading)))
      ensures Fits(r, LastHour(samples, minute.value))
    {
      hide RingOf;
      hide Sum;
      hide Fits;
      hide LastHour;
      Advance(reading);
      SumNotNegative(samples, minute.value - 59, minute.value);
      RateFits(samples, minute.value);
      r := (5.0 + connections as real) / (1.0 + totalTime);
    }

    /** Durations outside a minute are not observations. */
    method Record(success: bool, duration: real, reading: Option<real>)
      requires Valid()
      modifies this, counts, successes, seconds
      ensures Valid()
      ensures !(0.0 <= duration <= 60.0) ==>
        samples == old(samples) && minute == old(minute) && completed == old(completed)
      ensures 0.0 <= duration <= 60.0 ==>
        minute == Some(old(Reached(reading))) && samples == old(samples) + [Sample(success, duration, minute.value)]
      ensures 0.0 <= duration <= 60.0 ==>
        completed == if old(completed) < MAX_READING then old(completed) + 1 else MAX_READING
    {
      hide RingOf;
      hide Sum;
      hide MinuteOf;
      hide MinuteOfReading;
      if !(0.0 <= duration <= 60.0) { return; }
      Advance(reading);
      ghost var x := Sample(success, duration, minute.value);
      ghost var before := Ring();
      RingRecord(before, samples, minute.value, x);
      var slot := minute.value % 60;
      assert before[slot] == Totals(counts[slot], successes[slot], seconds[slot]);
      counts[slot] := counts[slot] + 1;
      observations := observations + 1;
      if success {
        successes[slot] := successes[slot] + 1;
        connections := connections + 1;
      }
      seconds[slot] := seconds[slot] + duration;
      totalTime := totalTime + duration;
      completed := if completed < MAX_READING then completed + 1 else MAX_READING;
      samples := samples + [x];
      assert Ring() == before[slot := before[slot].Plus(One(x))];
    }
  }
}
