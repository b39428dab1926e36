/**
  The samples that the history cache still shows, as one plain list: when a new score comes and there is no room, the
  score that was recorded longest ago, among those recorded in the last hour, loses its samples.
*/
module PerformanceKept {
  import opened Outcomes
  import opened PerformanceHistory
  import opened PerformanceCache

  /** A sample, and whose it is. */
  datatype Entry = Entry(score: ScoreId, sample: Sample)

  /** The samples of a score. */
  function Of(all: seq<Entry>, score: ScoreId): seq<Sample> {
    if all == [] then []
    else Of(all[..|all| - 1], score) + if all[|all| - 1].score == score then [all[|all| - 1].sample] else []
  }

  /** The place of the last sample of a score. */
  function LastOf(all: seq<Entry>, score: ScoreId): (i: int)
    ensures -1 <= i < |all|
  {
    if all == [] then -1
    else if all[|all| - 1].score == score then |all| - 1
    else LastOf(all[..|all| - 1], score)
  }

  /** Whether some sample is of the last sixty minutes. */
  predicate Recently(log: seq<Sample>, now: int) {
    exists i :: 0 <= i < |log| && log[i].minute >= now - 59
  }

  /** The scores that were recorded in the last hour. */
  function Active(all: seq<Entry>, now: int): set<ScoreId> {
    set e | e in all && Recently(Of(all, e.score), now) :: e.score
  }

  /** The score recorded longest ago of those recorded in the last hour. */
  predicate Oldest(all: seq<Entry>, now: int, score: ScoreId) {
    score in Active(all, now) && forall other :: other in Active(all, now) ==> LastOf(all, score) <= LastOf(all, other)
  }

  /** The samples without those of the oldest score of the whole. */
  function Spared(all: seq<Entry>, whole: seq<Entry>, now: int): seq<Entry> {
    if all == [] then []
    else
      Spared(all[..|all| - 1], whole, now) +
      if Oldest(whole, now, all[|all| - 1].score) then [] else [all[|all| - 1]]
  }

  /** Room for a score: there is some if it was recorded in the last hour, or fewer than the bound were. */
  function Roomed(all: seq<Entry>, maximum: nat, score: ScoreId, now: int): seq<Entry> {
    if score in Active(all, now) || |Active(all, now)| < maximum then all else Spared(all, all, now)
  }

  /** A sample comes; it is not counted if the counter of its score is full. */
  function Extended(all: seq<Entry>, maximum: nat, score: ScoreId, x: Sample): seq<Entry> {
    var room := Roomed(all, maximum, score, x.minute);
    if Sum(Of(room, score), x.minute - 59, x.minute).attempts == MAX_ATTEMPTS then room else room + [Entry(score, x)]
  }

  lemma More(all: seq<Entry>, e: Entry, score: ScoreId)
    ensures Of(all + [e], score) == if e.score == score then Of(all, score) + [e.sample] else Of(all, score)
    ensures LastOf(all + [e], score) == if e.score == score then |all| else LastOf(all, score)
  {
    assert (all + [e])[..|all|] == all;
  }

  lemma {:induction false} OfOne(all: seq<Entry>, score: ScoreId)
    ensures Of(all, score) != [] ==> exists e :: e in all && e.score == score
  {
    if all != [] && all[|all| - 1].score != score {
      OfOne(all[..|all| - 1], score);
      if Of(all, score) != [] {
        var e :| e in all[..|all| - 1] && e.score == score;
        assert e in all;
      }
    } else if all != [] {
      assert all[|all| - 1] in all;
    }
  }

  lemma ActiveIff(all: seq<Entry>, now: int, score: ScoreId)
    ensures score in Active(all, now) <==> Recently(Of(all, score), now)
  {
    OfOne(all, score);
  }

  lemma SparedMore(all: seq<Entry>, whole: seq<Entry>, now: int, victim: ScoreId)
    requires all != [] && forall x :: Oldest(whole, now, x) <==> x == victim
    ensures var before, last := all[..|all| - 1], all[|all| - 1];
            Spared(all, whole, now) ==
            if last.score == victim then Spared(before, whole, now) else Spared(before, whole, now) + [last]
  {
    hide Oldest;
    assert Oldest(whole, now, all[|all| - 1].score) <==> all[|all| - 1].score == victim;
  }

  lemma {:induction false} SparedOf(all: seq<Entry>, whole: seq<Entry>, now: int, victim: ScoreId, score: ScoreId)
    requires forall x :: Oldest(whole, now, x) <==> x == victim
    ensures Of(Spared(all, whole, now), score) == if score == victim then [] else Of(all, score)
  {
    hide Oldest;
    if all != [] {
      var before, last := all[..|all| - 1], all[|all| - 1];
      SparedOf(before, whole, now, victim, score);
      SparedMore(all, whole, now, victim);
      if last.score != victim { More(Spared(before, whole, now), last, score); }
    }
  }

  /** Who was recorded before whom stays so. */
  lemma {:induction false} SparedLast(all: seq<Entry>, whole: seq<Entry>, now: int, victim: ScoreId, x: ScoreId,
                                      y: ScoreId)
    requires forall z :: Oldest(whole, now, z) <==> z == victim
    requires x != victim && y != victim && LastOf(all, x) < LastOf(all, y)
    ensures LastOf(Spared(all, whole, now), x) < LastOf(Spared(all, whole, now), y)
  {
    hide Oldest;
    var before, last := all[..|all| - 1], all[|all| - 1];
    SparedMore(all, whole, now, victim);
    if last.score != victim {
      More(Spared(before, whole, now), last, x);
      More(Spared(before, whole, now), last, y);
    }
    if last.score != y { SparedLast(before, whole, now, victim, x, y); }
  }

  // -----------------------------------------------------------------
  // The cache keeps these samples
  // -----------------------------------------------------------------

  /** A window in the cache was last observed when it got its last sample. */
  predicate Sampled(w: History) {
    w.samples != [] && w.samples[|w.samples| - 1].minute == w.observed
  }

  predicate InLine(all: seq<Entry>, recent: seq<Node>) {
    forall i, k :: 0 <= i < k < |recent| ==> LastOf(all, recent[i].score) < LastOf(all, recent[k].score)
  }

  /** The logs are those of the list, and the scores stand in the order of their last samples. */
  ghost predicate Tracks(c: Cache, all: seq<Entry>) {
    (forall score :: LogOf(c, score) == Of(all, score)) &&
    (forall score :: score in c.stored ==> Sampled(c.stored[score].window)) &&
    InLine(all, c.recent)
  }

  /** A history that is not stale has a sample of the last hour. */
  lemma StoredIsActive(c: Cache, maximum: nat, score: ScoreId)
    requires Good(c, maximum) && !Stale(c) && score in c.stored && Sampled(c.stored[score].window)
    ensures Recently(LogOf(c, score), c.minute)
  {
    hide Sane;
    var kept, log := KeptOf(c, score), LogOf(c, score);
    assert Keeps(kept, log, c.minute);
    var n := Node(c.stored[score].position, score);
    var k :| 0 <= k < |c.recent| && c.recent[k] == n;
    assert Observed(c.stored, c.recent[0].score) <= Observed(c.stored, c.recent[k].score);
    assert kept[|kept| - 1] == log[|log| - 1];
  }

  lemma ActiveIsStored(c: Cache, maximum: nat, score: ScoreId)
    requires Good(c, maximum) && score !in c.stored
    ensures !Recently(LogOf(c, score), c.minute)
  {
    hide Listed;
    hide Ordered;
    assert KeptOf(c, score) == [] && Keeps(KeptOf(c, score), LogOf(c, score), c.minute);
  }

  /** In a cache without stale histories a score has a history exactly if it was recorded in the last hour. */
  lemma StoredAreActive(c: Cache, maximum: nat, all: seq<Entry>)
    requires Good(c, maximum) && Tracks(c, all) && !Stale(c)
    ensures c.stored.Keys == Active(all, c.minute)
  {
    hide Of;
    hide LastOf;
    hide Active;
    hide Good;
    hide Recently;
    hide InLine;
    hide Stale;
    forall score ensures score in c.stored <==> score in Active(all, c.minute) {
      ActiveIff(all, c.minute, score);
      if score in c.stored { StoredIsActive(c, maximum, score); } else { ActiveIsStored(c, maximum, score); }
    }
  }

  lemma {:induction false} ListSize(recent: seq<Node>, scores: set<ScoreId>)
    requires forall score :: score in scores <==> exists i :: 0 <= i < |recent| && recent[i].score == score
    requires forall i, k :: 0 <= i < k < |recent| ==> recent[i].score != recent[k].score
    ensures |recent| == |scores|
  {
    if recent == [] {
      assert scores == {};
    } else {
      var n := |recent| - 1;
      var rest := recent[..n];
      forall score | score in scores - {recent[n].score} ensures exists i :: 0 <= i < |rest| && rest[i].score == score {
        var i :| 0 <= i < |recent| && recent[i].score == score;
        assert rest[i].score == score;
      }
      forall i | 0 <= i < n ensures rest[i].score in scores - {recent[n].score} { assert recent[i].score in scores; }
      ListSize(rest, scores - {recent[n].score});
      assert recent[n].score in scores;
    }
  }

  /** Every node stands for a score with a history, and every such score for one node. */
  lemma ListScores(c: Cache, maximum: nat)
    requires Good(c, maximum)
    ensures forall score :: score in c.stored.Keys <==> exists i :: 0 <= i < |c.recent| && c.recent[i].score == score
    ensures forall i, k :: 0 <= i < k < |c.recent| ==> c.recent[i].score != c.recent[k].score
  {
    forall i | 0 <= i < |c.recent|
      ensures c.recent[i].score in c.stored && c.stored[c.recent[i].score].position == c.recent[i].id
    {
      NodeOf(c.recent, c.stored, c.next, i);
    }
    forall score | score in c.stored ensures exists i :: 0 <= i < |c.recent| && c.recent[i].score == score {
      var n := Node(c.stored[score].position, score);
      var i :| 0 <= i < |c.recent| && c.recent[i] == n;
      assert c.recent[i].score == score;
    }
  }

  /** The head of the list is the oldest score. */
  lemma HeadIsOldest(all: seq<Entry>, now: int, recent: seq<Node>)
    requires InLine(all, recent) && recent != []
    requires forall score :: score in Active(all, now) <==> exists i :: 0 <= i < |recent| && recent[i].score == score
    ensures forall x :: Oldest(all, now, x) <==> x == recent[0].score
  {
    hide Active;
    hide LastOf;
    var v := recent[0].score;
    assert v in Active(all, now);
    forall x | x in Active(all, now) && x != v ensures LastOf(all, v) < LastOf(all, x) {
      var k :| 0 <= k < |recent| && recent[k].score == x;
    }
  }

  /** Whose history a new score costs, told from the samples alone. */
  lemma VictimIs(c: Cache, maximum: nat, all: seq<Entry>, score: ScoreId)
    requires Good(c, maximum) && Tracks(c, all) && !Stale(c) && maximum > 0
    ensures Victim(c, score, maximum) == None <==> score in Active(all, c.minute) || |Active(all, c.minute)| < maximum
    ensures Victim(c, score, maximum) != None ==>
              forall x :: Oldest(all, c.minute, x) <==> x == Victim(c, score, maximum).value
  {
    hide Active;
    hide Of;
    hide Oldest;
    hide InLine;
    hide Sampled;
    StoredAreActive(c, maximum, all);
    ListScores(c, maximum);
    ListSize(c.recent, c.stored.Keys);
    assert |c.recent| <= maximum;
    hide Good;
    hide Stale;
    if Victim(c, score, maximum) != None { HeadIsOldest(all, c.minute, c.recent); }
  }

  // -----------------------------------------------------------------
  // Every step keeps track
  // -----------------------------------------------------------------

  lemma {:induction false} ExpiredTracks(c: Cache, maximum: nat, all: seq<Entry>)
    requires Good(c, maximum) && Tracks(c, all)
    ensures Tracks(Expired(c), all)
    decreases |c.recent|
  {
    hide Good;
    hide Of;
    hide LastOf;
    if Stale(c) {
      DroppedGood(c, maximum, 0, c.logs) by { assert c.minute - Observed(c.stored, c.recent[0].score) >= 60; }
      ExpiredTracks(Dropped(c, 0), maximum, all);
    }
  }

  lemma AdvancedTracks(c: Cache, maximum: nat, all: seq<Entry>, minute: int)
    requires Good(c, maximum) && Tracks(c, all)
    ensures Tracks(Advanced(c, minute), all) && !Stale(Advanced(c, minute))
  {
    hide Good;
    hide Expired;
    hide Of;
    hide InLine;
    var now := if minute >= c.minute then minute else c.minute;
    LaterGood(c, maximum, now);
    ExpiredTracks(c.(minute := now), maximum, all);
    ExpiredGood(c.(minute := now), maximum);
  }

  lemma ReadTracks(c: Cache, score: ScoreId, all: seq<Entry>)
    requires Tracks(c, all)
    ensures Tracks(Read(c, score), all)
  {
    hide Of;
    hide InLine;
  }

  lemma DroppedInLine(all: seq<Entry>, now: int, recent: seq<Node>, v: ScoreId)
    requires InLine(all, recent) && recent != [] && v == recent[0].score
    requires forall x :: Oldest(all, now, x) <==> x == v
    requires forall i :: 0 < i < |recent| ==> recent[i].score != v
    ensures InLine(Spared(all, all, now), recent[1..])
  {
    hide Oldest;
    hide LastOf;
    hide Spared;
    var rest := recent[1..];
    forall i, k | 0 <= i < k < |rest|
      ensures LastOf(Spared(all, all, now), rest[i].score) < LastOf(Spared(all, all, now), rest[k].score)
    {
      assert rest[i] == recent[i + 1] && rest[k] == recent[k + 1];
      SparedLast(all, all, now, v, rest[i].score, rest[k].score);
    }
  }

  /** A history that is lost to the bound takes its samples with it. */
  lemma DroppedTracks(c: Cache, maximum: nat, all: seq<Entry>, v: ScoreId)
    requires Good(c, maximum) && Tracks(c, all) && c.recent != [] && v == c.recent[0].score
    requires forall x :: Oldest(all, c.minute, x) <==> x == v
    ensures Tracks(Dropped(c, 0).(logs := c.logs - {v}), Spared(all, all, c.minute))
  {
    hide Oldest;
    hide Of;
    hide Spared;
    hide Sampled;
    hide InLine;
    ListScores(c, maximum);
    hide Good;
    var d := Dropped(c, 0).(logs := c.logs - {v});
    DroppedInLine(all, c.minute, c.recent, v);
    assert d.recent == c.recent[1..];
    forall x ensures LogOf(d, x) == Of(Spared(all, all, c.minute), x) { SparedOf(all, all, c.minute, v, x); }
  }

  lemma EvictedTracks(c: Cache, maximum: nat, all: seq<Entry>, score: ScoreId)
    requires Good(c, maximum) && Tracks(c, all) && !Stale(c) && maximum > 0
    ensures Tracks(Evicted(c, score, maximum), Roomed(all, maximum, score, c.minute))
  {
    hide Good;
    hide Tracks;
    hide Oldest;
    hide Spared;
    hide Active;
    hide Dropped;
    VictimIs(c, maximum, all, score);
    if Victim(c, score, maximum) != None { DroppedTracks(c, maximum, all, c.recent[0].score); }
  }

  /** A score that gets a sample goes to the end of the list. */
  lemma PlacedTracks(c: Cache, d: Cache, all: seq<Entry>, score: ScoreId, x: Sample, others: seq<Node>, n: Node)
    requires Tracks(c, all) && InLine(all, others) && d.recent == others + [n] && n.score == score
    requires forall i :: 0 <= i < |others| ==> others[i].score != score
    requires d.logs == c.logs[score := LogOf(c, score) + [x]]
    requires forall s :: s in d.stored && s != score ==> s in c.stored && d.stored[s] == c.stored[s]
    requires score in d.stored && Sampled(d.stored[score].window)
    ensures Tracks(d, all + [Entry(score, x)])
  {
    hide Of;
    hide LastOf;
    hide Sampled;
    var e := Entry(score, x);
    forall s ensures LogOf(d, s) == Of(all + [e], s) { More(all, e, s); }
    forall i, k | 0 <= i < k < |d.recent|
      ensures LastOf(all + [e], d.recent[i].score) < LastOf(all + [e], d.recent[k].score)
    {
      More(all, e, d.recent[i].score);
      More(all, e, d.recent[k].score);
      assert d.recent[i] == others[i];
      if k < |others| { assert d.recent[k] == others[k]; } else { Before(all, others[i].score); }
    }
  }

  lemma Before(all: seq<Entry>, score: ScoreId)
    ensures LastOf(all, score) < |all|
  {
  }

  lemma RenewedTracks(c: Cache, maximum: nat, all: seq<Entry>, score: ScoreId, valid: bool, seconds: real)
    requires Good(c, maximum) && Tracks(c, all) && score in c.stored
    ensures Tracks(Taken(c, score, valid, seconds), all + [Entry(score, Sample(valid, seconds, c.minute))])
  {
    hide Of;
    hide LastOf;
    hide PlaceOf;
    hide Keeps;
    hide Ordered;
    var i := PlaceOf(c.recent, c.stored[score].position);
    NodePlace(c.recent, c.stored, c.next, score);
    CutInLine(all, c.recent, i);
    CutGone(c.recent, c.stored, c.next, i);
    assert Aged(c.stored[score].window, c.minute).minute == c.minute;
    hide Good;
    hide Listed;
    hide Cut;
    hide InLine;
    PlacedTracks(c, Taken(c, score, valid, seconds), all, score, Sample(valid, seconds, c.minute), Cut(c.recent, i),
                 c.recent[i]);
  }

  lemma OpenedTracks(c: Cache, maximum: nat, all: seq<Entry>, score: ScoreId, valid: bool, seconds: real)
    requires Good(c, maximum) && Tracks(c, all) && score !in c.stored && c.minute >= 0
    ensures Tracks(Taken(Opened(c, score), score, valid, seconds),
                   all + [Entry(score, Sample(valid, seconds, c.minute))])
  {
    hide Of;
    hide LastOf;
    hide Keeps;
    hide Ordered;
    hide Taken;
    assert score in Opened(c, score).stored;
    hide Opened;
    var x := Sample(valid, seconds, c.minute);
    ListScores(c, maximum);
    NoneNamed(c.recent, c.stored, c.next);
    OpenedTaken(c, score, valid, seconds);
    hide Good;
    hide Listed;
    hide InLine;
    PlacedTracks(c, Taken(Opened(c, score), score, valid, seconds), all, score, x, c.recent, Node(c.next, score));
  }

  lemma CutInLine(all: seq<Entry>, recent: seq<Node>, i: nat)
    requires InLine(all, recent) && i < |recent|
    ensures InLine(all, Cut(recent, i))
  {
    hide LastOf;
    var rest := Cut(recent, i);
    forall k, m | 0 <= k < m < |rest| ensures LastOf(all, rest[k].score) < LastOf(all, rest[m].score) {
      assert rest[k] == recent[if k < i then k else k + 1] && rest[m] == recent[if m < i then m else m + 1];
    }
  }

  /** Theorem: a recording does to the cache what the plain list says. */
  lemma RecordingTracks(c: Cache, maximum: nat, all: seq<Entry>, score: ScoreId, valid: bool, seconds: real)
    requires Good(c, maximum) && Tracks(c, all) && !Stale(c) && maximum > 0 && c.minute >= 0
    ensures Tracks(Recording(c, maximum, score, valid, seconds),
                   Extended(all, maximum, score, Sample(valid, seconds, c.minute)))
  {
    hide Good;
    hide Of;
    hide Tracks;
    hide Roomed;
    hide Opened;
    hide Taken;
    hide Sum;
    var e, room := Evicted(c, score, maximum), Roomed(all, maximum, score, c.minute);
    EvictedTracks(c, maximum, all, score);
    EvictedGood(c, maximum, score);
    RecordingLogs(c, maximum, score, valid, seconds, score);
    TracksLog(c, all, score);
    TracksLog(e, room, score);
    assert LogOf(e, score) == LogOf(c, score);
    if Shown(Opened(e, score), score).attempts == MAX_ATTEMPTS {
      assert Opened(e, score) == e by { Full(e, score); }
      ReadTracks(e, score, room);
    } else if score in e.stored {
      assert Opened(e, score) == e by { Known(e, score); }
      RenewedTracks(e, maximum, room, score, valid, seconds);
    } else {
      OpenedTracks(e, maximum, room, score, valid, seconds);
    }
  }

  lemma TracksLog(c: Cache, all: seq<Entry>, score: ScoreId)
    requires Tracks(c, all)
    ensures LogOf(c, score) == Of(all, score)
  {
  }

  lemma Known(c: Cache, score: ScoreId)
    requires score in c.stored
    ensures Opened(c, score) == c
  {
  }

  /** A new history has room for its first sample. */
  lemma Full(c: Cache, score: ScoreId)
    requires Shown(Opened(c, score), score).attempts == MAX_ATTEMPTS
    ensures Opened(c, score) == c
  {
  }
}
