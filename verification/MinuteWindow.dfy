/** The desktop window: a ring of one-minute buckets and cached totals. */
module MinuteWindow {
  import opened Outcomes
  import opened PerformanceHistory

  class MinutePerformanceWindow {
    const buckets: array<Totals>
    var totals: Totals
    var minute: int
    var observed: int
    ghost var samples: seq<Sample>

    ghost function State(): History
      reads this
    {
      History(samples, minute, observed)
    }

    ghost predicate Valid()
      reads this, buckets
    {
      buckets.Length == BUCKETS && Sane(State()) &&
      (minute < 0 ==> samples == [] && totals == NONE) &&
      (minute >= 0 ==> RingOf(buckets[..], samples, minute) && totals == Recent(State()))
    }

    constructor ()
      ensures Valid() && State() == EMPTY && fresh(buckets)
    {
      buckets := new Totals[BUCKETS](_ => NONE);
      totals, minute, observed, samples := NONE, -1, -1, [];
    }

    /** After an hour, or at first, every bucket is emptied. */
    method Restart(now: int)
      requires buckets.Length == BUCKETS && now >= 0 && forall i :: 0 <= i < |samples| ==> samples[i].minute <= now - 60
      modifies this`totals, this`minute, buckets
      ensures minute == now && RingOf(buckets[..], samples, now) && totals == Sum(samples, now - 59, now)
    {
      hide RingOf;
      hide Sum;
      var k := 0;
      while k < BUCKETS
        invariant 0 <= k <= BUCKETS && forall i :: 0 <= i < k ==> buckets[i] == NONE
      {
        buckets[k] := NONE;
        k := k + 1;
      }
      RingCleared(buckets[..], samples, now);
      totals, minute := NONE, now;
    }

    /** The buckets of the minutes that pass are emptied one by one. */
    method Tick(now: int)
      requires buckets.Length == BUCKETS && 0 <= minute <= now && RingOf(buckets[..], samples, minute)
      requires forall i :: 0 <= i < |samples| ==> samples[i].minute <= minute
      modifies this`minute, buckets
      ensures minute == now && RingOf(buckets[..], samples, now)
    {
      hide RingOf;
      while minute < now
        invariant old(minute) <= minute <= now && RingOf(buckets[..], samples, minute)
      {
        ghost var ring := buckets[..];
        RingTick(ring, samples, minute);
        minute := minute + 1;
        buckets[minute % 60] := NONE;
        assert buckets[..] == ring[minute % 60 := NONE];
      }
    }

    /** The totals are summed again over the buckets. */
    method Resum()
      requires buckets.Length == BUCKETS && RingOf(buckets[..], samples, minute)
      modifies this`totals
      ensures totals == Sum(samples, minute - 59, minute)
    {
      hide Sum;
      hide MinuteOf;
      totals := NONE;
      var k := 0;
      while k < BUCKETS
        invariant 0 <= k <= BUCKETS && totals == SlotSum(samples, minute, k)
      {
        assert buckets[..][k] == At(samples, MinuteOf(minute, k));
        totals := totals.Plus(buckets[k]);
        k := k + 1;
      }
      SlotsAreWindow(samples, minute);
    }

    /** Bring the window up to a minute, or to its own if that is later, and read it. */
    method ReadMinute(requested: int) returns (r: Result<Totals>)
      requires Valid()
      modifies this`totals, this`minute, buckets
      ensures Valid()
      ensures requested < 0 ==> r.Err? && State() == old(State())
      ensures requested >= 0 ==> State() == Aged(old(State()), requested) && r == Ok(Recent(State()))
    {
      if requested < 0 { return Err("Invalid performance minute"); }
      var now := if requested >= minute then requested else minute;
      if minute < 0 || now - minute >= 60 {
        Restart(now);
      } else if now > minute {
        Tick(now);
        Resum();
      }
      return Ok(totals);
    }

    /** Record a sample in the present minute, unless it is malformed or the counter is full. */
    method RecordMinute(valid: bool, seconds: real, requested: int) returns (r: Result<bool>)
      requires Valid()
      modifies this, buckets
      ensures Valid()
      ensures r.Err? <==> seconds >= 0.0 && requested < 0
      ensures r == Ok(true) <==>
        seconds >= 0.0 && requested >= 0 && Recent(Aged(old(State()), requested)).attempts != 0xffff_ffff_ffff_ffff
      ensures r.Err? || seconds < 0.0 ==> State() == old(State())
      ensures r.Ok? && seconds >= 0.0 ==>
        State() == (if r.value then Recorded(Aged(old(State()), requested), valid, seconds)
                    else Aged(old(State()), requested))
    {
      hide RingOf;
      hide Sum;
      if seconds < 0.0 { return Ok(false); }
      var read := ReadMinute(requested);
      if read.Err? { return Err(read.code); }
      if totals.attempts == MAX_ATTEMPTS { return Ok(false); }
      ghost var x := Sample(valid, seconds, minute);
      ghost var ring := buckets[..];
      RingSize(ring, samples, minute);
      RingRecord(ring, samples, minute, x);
      var slot := minute % 60;
      var one := Totals(1, if valid then 1 else 0, seconds);
      buckets[slot] := buckets[slot].Plus(one);
      assert buckets[..] == ring[slot := ring[slot].Plus(One(x))];
      totals := totals.Plus(one);
      samples := samples + [x];
      observed := minute;
      return Ok(true);
    }
  }
}
