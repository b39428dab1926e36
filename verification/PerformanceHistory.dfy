/**
  The performance window of the last sixty minutes: a ring of one-minute buckets
  that agrees with the plain history of its samples, on the desktop and in the
  mobile scheduler. Durations are reals.
*/
module PerformanceHistory {
  const BUCKETS: nat := 60
  const MAX_ATTEMPTS: nat := 0xffff_ffff_ffff_ffff
  const BASE_VALID: real := 5.0
  const BASE_SECONDS: real := 1.0

  datatype Totals = Totals(attempts: nat, valid: nat, seconds: real) {
    function Plus(t: Totals): Totals {
      Totals(attempts + t.attempts, valid + t.valid, seconds + t.seconds)
    }
  }

  const NONE: Totals := Totals(0, 0, 0.0)

  /** A conclusive observation, with the minute to which the window's clock had come. */
  datatype Sample = Sample(valid: bool, seconds: real, minute: int)

  function One(x: Sample): Totals {
    Totals(1, if x.valid then 1 else 0, x.seconds)
  }

  /** The totals of the samples of some minutes. */
  function Sum(samples: seq<Sample>, from: int, to: int): Totals {
    if samples == [] then NONE
    else
      var last := samples[|samples| - 1];
      var rest := Sum(samples[..|samples| - 1], from, to);
      if from <= last.minute <= to then rest.Plus(One(last)) else rest
  }

  lemma SumSnoc(samples: seq<Sample>, x: Sample, from: int, to: int)
    ensures Sum(samples + [x], from, to) ==
            if from <= x.minute <= to then Sum(samples, from, to).Plus(One(x)) else Sum(samples, from, to)
  {
    assert (samples + [x])[..|samples|] == samples;
  }

  lemma {:induction false} SumNone(samples: seq<Sample>, from: int, to: int)
    requires forall i :: 0 <= i < |samples| ==> !(from <= samples[i].minute <= to)
    ensures Sum(samples, from, to) == NONE
  {
    if samples != [] { SumNone(samples[..|samples| - 1], from, to); }
  }

  lemma {:induction false} SumNotNegative(samples: seq<Sample>, from: int, to: int)
    requires forall i :: 0 <= i < |samples| ==> samples[i].seconds >= 0.0
    ensures Sum(samples, from, to).seconds >= 0.0
  {
    if samples != [] { SumNotNegative(samples[..|samples| - 1], from, to); }
  }

  // -----------------------------------------------------------------
  // A window as its history
  // -----------------------------------------------------------------

  datatype History = History(samples: seq<Sample>, minute: int, observed: int)

  const EMPTY: History := History([], -1, -1)

  /** The clock of a window never goes back. */
  function Aged(h: History, minute: int): History {
    h.(minute := if minute >= h.minute then minute else h.minute)
  }

  /** What a reader sees: the samples of the last sixty minutes. */
  function Recent(h: History): Totals {
    Sum(h.samples, h.minute - 59, h.minute)
  }

  function Recorded(h: History, valid: bool, seconds: real): History {
    h.(samples := h.samples + [Sample(valid, seconds, h.minute)], observed := h.minute)
  }

  predicate Sane(h: History) {
    -1 <= h.observed <= h.minute &&
    forall i :: 0 <= i < |h.samples| ==> 0 <= h.samples[i].minute <= h.observed && h.samples[i].seconds >= 0.0
  }

  // -----------------------------------------------------------------
  // Slots
  // -----------------------------------------------------------------

  /** The samples of one minute. */
  function At(samples: seq<Sample>, minute: int): Totals {
    Sum(samples, minute, minute)
  }

  /** The minute of the last sixty that a slot of the ring stands for. */
  function MinuteOf(now: int, slot: nat): (m: int)
    requires slot < BUCKETS
    ensures now - 60 < m <= now && m % 60 == slot
  {
    SlotMinute(now, slot);
    now - (now - slot) % 60
  }

  lemma SlotMinute(now: int, slot: nat)
    requires slot < BUCKETS
    ensures (now - (now - slot) % 60) % 60 == slot
  {
    var q := (now - slot) / 60;
    assert now - (now - slot) % 60 == slot + 60 * q;
  }

  /** No other minute of the last sixty shares the slot. */
  lemma SlotUnique(now: int, slot: nat, m: int)
    requires slot < BUCKETS && now - 60 < m <= now && m % 60 == slot
    ensures m == MinuteOf(now, slot)
  {
  }

  /** The slots that a step to the next minute leaves alone stand for the same minutes. */
  lemma SlotStays(now: int, slot: nat)
    requires slot < BUCKETS && slot != (now + 1) % 60
    ensures MinuteOf(now + 1, slot) == MinuteOf(now, slot)
  {
    assert (now + 1) % 60 == (now - 59) % 60;
  }

  function SlotSum(samples: seq<Sample>, now: int, k: nat): Totals
    requires k <= BUCKETS
  {
    if k == 0 then NONE else SlotSum(samples, now, k - 1).Plus(At(samples, MinuteOf(now, k - 1)))
  }

  lemma {:induction false} SlotSumEmpty(now: int, k: nat)
    requires k <= BUCKETS
    ensures SlotSum([], now, k) == NONE
  {
    hide MinuteOf;
    if k > 0 { SlotSumEmpty(now, k - 1); }
  }

  /** One more sample adds itself to its own slot. */
  lemma {:induction false} SlotSumSnoc(samples: seq<Sample>, x: Sample, now: int, k: nat)
    requires k <= BUCKETS
    ensures SlotSum(samples + [x], now, k) ==
            if now - 60 < x.minute <= now &&
            x.minute % 60 < k then SlotSum(samples, now, k).Plus(One(x)) else SlotSum(samples, now, k)
  {
    hide MinuteOf;
    hide Sum;
    hide One;
    if k > 0 {
      SlotSumSnoc(samples, x, now, k - 1);
      SumSnoc(samples, x, MinuteOf(now, k - 1), MinuteOf(now, k - 1));
      if now - 60 < x.minute <= now && x.minute % 60 == k - 1 { SlotUnique(now, k - 1, x.minute); }
    }
  }

  /** The sixty slots together are the last sixty minutes. */
  lemma {:induction false} SlotsAreWindow(samples: seq<Sample>, now: int)
    ensures SlotSum(samples, now, BUCKETS) == Sum(samples, now - 59, now)
  {
    hide SlotSum;
    if samples == [] {
      SlotSumEmpty(now, BUCKETS);
    } else {
      var n := |samples| - 1;
      SlotsAreWindow(samples[..n], now);
      SlotSumSnoc(samples[..n], samples[n], now, BUCKETS);
      SumSnoc(samples[..n], samples[n], now - 59, now);
      assert samples[..n] + [samples[n]] == samples;
    }
  }

  /** A ring holds, in each slot, the samples of the minute that the slot stands for. */
  ghost predicate RingOf(ring: seq<Totals>, samples: seq<Sample>, now: int) {
    |ring| == BUCKETS && forall k :: 0 <= k < BUCKETS ==> ring[k] == At(samples, MinuteOf(now, k))
  }

  lemma RingSize(ring: seq<Totals>, samples: seq<Sample>, now: int)
    requires RingOf(ring, samples, now)
    ensures |ring| == BUCKETS
  {
  }

  /** The next minute empties its slot and leaves the others. */
  lemma RingTick(ring: seq<Totals>, samples: seq<Sample>, now: int)
    requires RingOf(ring, samples, now) && forall i :: 0 <= i < |samples| ==> samples[i].minute <= now
    ensures RingOf(ring[(now + 1) % 60 := NONE], samples, now + 1)
  {
    hide MinuteOf;
    hide Sum;
    var next := (now + 1) % 60;
    var after := ring[next := NONE];
    forall k | 0 <= k < BUCKETS ensures after[k] == At(samples, MinuteOf(now + 1, k)) {
      if k == next {
        SlotUnique(now + 1, k, now + 1);
        SumNone(samples, now + 1, now + 1);
      } else {
        SlotStays(now, k);
      }
    }
  }

  /** After an hour without samples every slot is empty. */
  lemma RingCleared(ring: seq<Totals>, samples: seq<Sample>, now: int)
    requires |ring| == BUCKETS && forall k :: 0 <= k < BUCKETS ==> ring[k] == NONE
    requires forall i :: 0 <= i < |samples| ==> samples[i].minute <= now - 60
    ensures RingOf(ring, samples, now) && Sum(samples, now - 59, now) == NONE
  {
    hide MinuteOf;
    hide Sum;
    forall k | 0 <= k < BUCKETS ensures At(samples, MinuteOf(now, k)) == NONE {
      SumNone(samples, MinuteOf(now, k), MinuteOf(now, k));
    }
    SumNone(samples, now - 59, now);
  }

  /** A sample of the present minute goes to the present slot. */
  lemma RingRecord(ring: seq<Totals>, samples: seq<Sample>, now: int, x: Sample)
    requires RingOf(ring, samples, now) && x.minute == now
    ensures RingOf(ring[now % 60 := ring[now % 60].Plus(One(x))], samples + [x], now)
    ensures Sum(samples + [x], now - 59, now) == Sum(samples, now - 59, now).Plus(One(x))
  {
    hide MinuteOf;
    hide Sum;
    hide One;
    var after := ring[now % 60 := ring[now % 60].Plus(One(x))];
    forall k | 0 <= k < BUCKETS ensures after[k] == At(samples + [x], MinuteOf(now, k)) {
      SumSnoc(samples, x, MinuteOf(now, k), MinuteOf(now, k));
      if k == now % 60 { SlotUnique(now, k, now); }
    }
    SumSnoc(samples, x, now - 59, now);
  }
}
