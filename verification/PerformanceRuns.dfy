/** The answers of the history cache over whole runs, against the plain list of its calls. */
module PerformanceRuns {
  import opened PerformanceHistory
  import opened PerformanceCache
  import opened PerformanceKept

  datatype Call =
    | Rate(score: ScoreId, minute: nat)
    | Record(score: ScoreId, valid: bool, seconds: real, minute: nat)

  function Step(c: Cache, maximum: nat, call: Call): Cache {
    match call
    case Rate(score, minute) => Read(Advanced(c, minute), score)
    case Record(score, valid, seconds, minute) =>
      if seconds < 0.0 then c else Recording(Advanced(c, minute), maximum, score, valid, seconds)
  }

  function RunTo(maximum: nat, calls: seq<Call>): Cache {
    if calls == [] then START else Step(RunTo(maximum, calls[..|calls| - 1]), maximum, calls[|calls| - 1])
  }

  /** The latest minute that a call has named. */
  function ClockOf(calls: seq<Call>): (minute: int)
    ensures minute >= -1
  {
    if calls == [] then -1
    else
      var before, last := ClockOf(calls[..|calls| - 1]), calls[|calls| - 1];
      if (last.Record? && last.seconds < 0.0) || last.minute < before then before else last.minute
  }

  /**
    The samples that the calls leave, in the order in which they were recorded: those of a score are lost when a score
    that was not recorded in the last hour comes while as many as the bound were, and it is the one recorded longest
    ago. No cache is involved.
  */
  function Kept(maximum: nat, calls: seq<Call>): seq<Entry> {
    if calls == [] then []
    else
      var last, all := calls[|calls| - 1], Kept(maximum, calls[..|calls| - 1]);
      if last.Rate? || last.seconds < 0.0 then all
      else Extended(all, maximum, last.score, Sample(last.valid, last.seconds, ClockOf(calls)))
  }

  /** The samples of a score since the bound last cost it its history. */
  function Since(maximum: nat, calls: seq<Call>, score: ScoreId): seq<Sample> {
    Of(Kept(maximum, calls), score)
  }

  lemma StepGood(c: Cache, maximum: nat, call: Call)
    requires Good(c, maximum) && maximum > 0
    ensures Good(Step(c, maximum, call), maximum)
  {
    hide Good;
    hide Advanced;
    hide Recording;
    hide Read;
    AdvancedGood(c, maximum, call.minute);
    match call
    case Rate(score, minute) => ReadGood(Advanced(c, minute), maximum, score);
    case Record(score, valid, seconds, minute) =>
      if seconds >= 0.0 { RecordingGood(Advanced(c, minute), maximum, score, valid, seconds); }
  }

  lemma {:induction false} RunGood(maximum: nat, calls: seq<Call>)
    requires maximum > 0
    ensures Good(RunTo(maximum, calls), maximum)
  {
    if calls != [] {
      RunGood(maximum, calls[..|calls| - 1]);
      StepGood(RunTo(maximum, calls[..|calls| - 1]), maximum, calls[|calls| - 1]);
    }
  }

  lemma StepTracks(c: Cache, maximum: nat, call: Call, all: seq<Entry>)
    requires Good(c, maximum) && Tracks(c, all) && maximum > 0
    ensures var now := if call.minute >= c.minute then call.minute else c.minute;
            if call.Record? && call.seconds < 0.0 then Step(c, maximum, call) == c
            else
              Step(c, maximum, call).minute == now &&
              Tracks(Step(c, maximum, call),
                     if call.Rate? then all
                     else Extended(all, maximum, call.score, Sample(call.valid, call.seconds, now)))
  {
    hide Good;
    hide Advanced;
    hide Recording;
    hide Tracks;
    hide Extended;
    hide Stale;
    AdvancedGood(c, maximum, call.minute);
    AdvancedTracks(c, maximum, all, call.minute);
    match call
    case Rate(score, minute) => ReadTracks(Advanced(c, minute), score, all);
    case Record(score, valid, seconds, minute) =>
      if seconds >= 0.0 {
        RecordingTracks(Advanced(c, minute), maximum, all, score, valid, seconds);
        RecordingLogs(Advanced(c, minute), maximum, score, valid, seconds, score);
      }
  }

  lemma {:induction false} RunTracks(maximum: nat, calls: seq<Call>)
    requires maximum > 0
    ensures RunTo(maximum, calls).minute == ClockOf(calls)
    ensures Tracks(RunTo(maximum, calls), Kept(maximum, calls))
  {
    hide Good;
    hide Step;
    hide Extended;
    if calls == [] {
      assert Tracks(START, []);
    } else {
      hide Tracks;
      var before, last := calls[..|calls| - 1], calls[|calls| - 1];
      RunTracks(maximum, before);
      RunGood(maximum, before);
      StepTracks(RunTo(maximum, before), maximum, last, Kept(maximum, before));
    }
  }

  /**
    Theorem: after any calls, a reader is shown exactly the samples of the last sixty minutes among those that the calls
    leave. When stale histories are dropped, and how the list is kept, makes no difference.
  */
  lemma ReadersSeeCalls(maximum: nat, calls: seq<Call>, score: ScoreId, minute: nat)
    requires maximum > 0
    ensures var now := if minute >= ClockOf(calls) then minute else ClockOf(calls);
            Shown(Advanced(RunTo(maximum, calls), minute), score) == Sum(Since(maximum, calls, score), now - 59, now)
  {
    hide Good;
    hide Advanced;
    hide Shown;
    RunGood(maximum, calls);
    RunTracks(maximum, calls);
    TracksLog(RunTo(maximum, calls), Kept(maximum, calls), score);
    AdvancedGood(RunTo(maximum, calls), maximum, minute);
    ShownIsLog(Advanced(RunTo(maximum, calls), minute), maximum, score);
  }

  // -----------------------------------------------------------------
  // Within the bound the cache is not seen at all
  // -----------------------------------------------------------------

  /** Every sample of a score that is well formed and fits the counter; no cache is involved. */
  function Samples(calls: seq<Call>, score: ScoreId): seq<Sample> {
    if calls == [] then []
    else
      var last, now := calls[|calls| - 1], ClockOf(calls);
      var log := Samples(calls[..|calls| - 1], score);
      if last.Record? && last.seconds >= 0.0 && last.score == score && Sum(log, now - 59, now).attempts != MAX_ATTEMPTS
      then log + [Sample(last.valid, last.seconds, now)] else log
  }

  function Scores(calls: seq<Call>): set<ScoreId> {
    if calls == [] then {} else Scores(calls[..|calls| - 1]) + {calls[|calls| - 1].score}
  }

  lemma {:induction false} OfNamed(all: seq<Entry>, scores: set<ScoreId>, now: int)
    requires forall e :: e in all ==> e.score in scores
    ensures Active(all, now) <= scores
  {
    hide Recently;
  }

  lemma {:induction false} KeptNamed(maximum: nat, calls: seq<Call>)
    ensures forall e :: e in Kept(maximum, calls) ==> e.score in Scores(calls)
  {
    hide Oldest;
    hide Active;
    hide Sum;
    hide Of;
    if calls != [] {
      var last, all := calls[|calls| - 1], Kept(maximum, calls[..|calls| - 1]);
      KeptNamed(maximum, calls[..|calls| - 1]);
      SparedFrom(all, all, ClockOf(calls));
    }
  }

  lemma {:induction false} SparedFrom(all: seq<Entry>, whole: seq<Entry>, now: int)
    ensures forall e :: e in Spared(all, whole, now) ==> e in all
  {
    hide Oldest;
    if all != [] { SparedFrom(all[..|all| - 1], whole, now); }
  }

  /** While no more scores are named than there is room for, there is room. */
  lemma AlwaysRoom(maximum: nat, all: seq<Entry>, score: ScoreId, scores: set<ScoreId>, now: int)
    requires score in scores && |scores| <= maximum && forall e :: e in all ==> e.score in scores
    ensures Roomed(all, maximum, score, now) == all
  {
    hide Of;
    hide Spared;
    OfNamed(all, scores, now);
    if score !in Active(all, now) { SubsetSize(Active(all, now), scores - {score}); }
  }

  lemma {:induction false} NothingLost(maximum: nat, calls: seq<Call>, score: ScoreId)
    requires |Scores(calls)| <= maximum
    ensures Since(maximum, calls, score) == Samples(calls, score)
  {
    hide Roomed;
    hide Sum;
    hide Of;
    if calls == [] {
      NoSamples(score);
    } else {
      var before, last := calls[..|calls| - 1], calls[|calls| - 1];
      var all := Kept(maximum, before);
      SubsetSize(Scores(before), Scores(calls));
      NothingLost(maximum, before, score);
      KeptNamed(maximum, before);
      if last.Record? {
        var x := Sample(last.valid, last.seconds, ClockOf(calls));
        AlwaysRoom(maximum, all, last.score, Scores(calls), x.minute);
        More(all, Entry(last.score, x), score);
      }
    }
  }

  lemma NoSamples(score: ScoreId)
    ensures Of([], score) == []
  {
  }

  lemma {:induction false} SubsetSize(a: set<ScoreId>, b: set<ScoreId>)
    requires a <= b
    ensures |a| <= |b|
  {
    if a != {} {
      var x :| x in a;
      SubsetSize(a - {x}, b - {x});
    }
  }

  /** Theorem: while no more scores are named than the bound, the cache answers like a history that keeps everything. */
  lemma CacheIsUnseen(maximum: nat, calls: seq<Call>, score: ScoreId, minute: nat)
    requires maximum > 0 && |Scores(calls)| <= maximum
    ensures var now := if minute >= ClockOf(calls) then minute else ClockOf(calls);
            Shown(Advanced(RunTo(maximum, calls), minute), score) == Sum(Samples(calls, score), now - 59, now)
  {
    ReadersSeeCalls(maximum, calls, score, minute);
    NothingLost(maximum, calls, score);
  }
}
