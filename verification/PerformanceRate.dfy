/** The smoothed rate, in terms of the samples themselves: five valid connections in one second come on top of them. */
module PerformanceRate {
  import opened PerformanceHistory

  /** The prior is applied once, to the totals. */
  function Smoothed(t: Totals): real
    requires t.seconds >= 0.0
  {
    (BASE_VALID + t.valid as real) / (BASE_SECONDS + t.seconds)
  }

  // -----------------------------------------------------------------
  // Samples, counted one by one
  // -----------------------------------------------------------------

  /** The samples of the last sixty minutes. */
  function LastHour(log: seq<Sample>, now: int): seq<Sample> {
    if log == [] then []
    else
      var last := log[|log| - 1];
      LastHour(log[..|log| - 1], now) + if now - 60 < last.minute <= now then [last] else []
  }

  /** How many are valid. */
  function ValidOnes(log: seq<Sample>): nat {
    if log == [] then 0 else ValidOnes(log[..|log| - 1]) + if log[|log| - 1].valid then 1 else 0
  }

  /** How long they took together. */
  function Duration(log: seq<Sample>): real {
    if log == [] then 0.0 else Duration(log[..|log| - 1]) + log[|log| - 1].seconds
  }

  /** A rate with which five more valid connections in one more second would fit an hour; without samples it is five. */
  predicate Fits(r: real, hour: seq<Sample>) {
    r * (1.0 + Duration(hour)) == 5.0 + ValidOnes(hour) as real && r > 0.0 && (hour == [] ==> r == 5.0)
  }

  lemma OneMore(log: seq<Sample>, x: Sample)
    ensures ValidOnes(log + [x]) == ValidOnes(log) + if x.valid then 1 else 0
    ensures Duration(log + [x]) == Duration(log) + x.seconds
  {
    assert (log + [x])[..|log|] == log;
  }

  /** The totals of a window are the number, the valid ones and the duration of its samples. */
  lemma {:induction false} SumCounts(log: seq<Sample>, now: int)
    ensures var hour := LastHour(log, now);
            Sum(log, now - 59, now) == Totals(|hour|, ValidOnes(hour), Duration(hour))
  {
    if log != [] {
      SumCounts(log[..|log| - 1], now);
      var hour, last := LastHour(log[..|log| - 1], now), log[|log| - 1];
      OneMore(hour, last);
      assert hour + [] == hour;
    }
  }

  lemma {:induction false} DurationNotNegative(log: seq<Sample>)
    requires forall i :: 0 <= i < |log| ==> log[i].seconds >= 0.0
    ensures Duration(log) >= 0.0
  {
    if log != [] { DurationNotNegative(log[..|log| - 1]); }
  }

  /** Theorem: the rate of a history fits its last hour. */
  lemma RateFits(log: seq<Sample>, now: int)
    requires Sum(log, now - 59, now).seconds >= 0.0
    ensures Fits(Smoothed(Sum(log, now - 59, now)), LastHour(log, now))
  {
    SumCounts(log, now);
    hide Sum;
    hide LastHour;
    var hour := LastHour(log, now);
    Quotient(5.0 + ValidOnes(hour) as real, 1.0 + Duration(hour));
  }

  lemma Quotient(a: real, b: real)
    requires a > 0.0 && b >= 1.0
    ensures a / b > 0.0 && a / b * b == a && (b == 1.0 ==> a / b == a)
  {
  }

  /** Theorem: had a failed sample of the last hour been valid, the rate would be higher. */
  lemma SuccessRaises(log: seq<Sample>, now: int, i: nat)
    requires i < |log| && !log[i].valid && now - 60 < log[i].minute <= now
    requires Sum(log, now - 59, now).seconds >= 0.0
    ensures var better := log[i := log[i].(valid := true)];
            Sum(better, now - 59, now).seconds >= 0.0 &&
            Smoothed(Sum(better, now - 59, now)) > Smoothed(Sum(log, now - 59, now))
  {
    var better := log[i := log[i].(valid := true)];
    SumFlipped(log, now, i);
    hide Sum;
    Raised(Sum(log, now - 59, now).valid, Sum(log, now - 59, now).seconds);
  }

  lemma {:induction false} SumFlipped(log: seq<Sample>, now: int, i: nat)
    requires i < |log| && !log[i].valid && now - 60 < log[i].minute <= now
    ensures var t, better := Sum(log, now - 59, now), log[i := log[i].(valid := true)];
            Sum(better, now - 59, now) == t.(valid := t.valid + 1)
  {
    var n, better := |log| - 1, log[i := log[i].(valid := true)];
    if i == n {
      assert better[..n] == log[..n];
    } else {
      SumFlipped(log[..n], now, i);
      assert better[..n] == log[..n][i := log[i].(valid := true)];
    }
  }

  lemma Raised(valid: nat, seconds: real)
    requires seconds >= 0.0
    ensures Smoothed(Totals(0, valid + 1, seconds)) > Smoothed(Totals(0, valid, seconds))
  {
    var a, b := 5.0 + valid as real, 1.0 + seconds;
    assert (valid + 1) as real == valid as real + 1.0;
    assert (a + 1.0) / b == a / b + 1.0 / b;
    assert 1.0 / b > 0.0;
  }
}
