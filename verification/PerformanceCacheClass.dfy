/** The history cache as the program keeps it: window objects, and scores that point into the list. */
module PerformanceCacheClass {
  import opened Outcomes
  import opened PerformanceHistory
  import opened MinuteWindow
  import opened PerformanceCache
  import opened PerformanceRate

  /** What a score holds: its window, and where on the list it is. */
  datatype Score = Score(window: MinutePerformanceWindow, position: nat)

  ghost function Objects(scores: map<ScoreId, Score>): set<object> {
    (set score | score in scores :: scores[score].window) +
    (set score | score in scores :: scores[score].window.buckets)
  }

  /** No two scores share a window. */
  ghost predicate Unshared(scores: map<ScoreId, Score>) {
    forall a, b :: a in scores && b in scores && a != b ==> Differ(scores[a].window, scores[b].window)
  }

  ghost predicate Differ(a: MinutePerformanceWindow, b: MinutePerformanceWindow) {
    a != b && a.buckets != b.buckets
  }

  lemma UnsharedMore(scores: map<ScoreId, Score>, score: ScoreId, s: Score)
    requires Unshared(scores) && score !in scores && forall other :: other in scores ==>
      Differ(scores[other].window, s.window)
    ensures Unshared(scores[score := s])
  {
  }

  lemma ObjectsMore(scores: map<ScoreId, Score>, score: ScoreId, s: Score)
    ensures Objects(scores[score := s]) <= Objects(scores) + {s.window, s.window.buckets}
  {
  }

  class EndpointPerformanceCache {
    const maximum: nat
    var recent: seq<Node>
    var scores: map<ScoreId, Score>
    var minute: int
    var next: nat
    ghost var logs: map<ScoreId, seq<Sample>>

    ghost function Footprint(): set<object>
      reads this`scores
    {
      Objects(scores)
    }

    ghost predicate Apart()
      reads this`scores
    {
      Unshared(scores)
    }

    ghost function Held(): map<ScoreId, Stored>
      reads this`scores, Footprint()
    {
      map score | score in scores :: Stored(scores[score].window.State(), scores[score].position)
    }

    ghost function View(): Cache
      reads this, Footprint()
    {
      Cache(recent, Held(), minute, next, logs)
    }

    ghost predicate Rings()
      reads this`scores, Footprint()
    {
      forall score :: score in scores ==> scores[score].window.Valid()
    }

    ghost predicate Valid()
      reads this, Footprint()
    {
      maximum > 0 && Apart() && Rings() && Good(View(), maximum)
    }

    constructor (maximum: nat)
      requires maximum > 0
      ensures Valid() && View() == START && this.maximum == maximum
    {
      this.maximum := maximum;
      recent, scores, minute, next, logs := [], map[], -1, 0, map[];
    }

    /** The history of a score is dropped from where its position says. */
    method Remove(score: ScoreId)
      requires Apart() && Rings() && score in scores && PlaceOf(recent, scores[score].position) < |recent|
      requires recent[PlaceOf(recent, scores[score].position)].score == score
      modifies this`recent, this`scores
      ensures Apart() && Rings() && Footprint() <= old(Footprint()) && scores == old(scores) - {score}
      ensures View() == Dropped(old(View()), PlaceOf(old(recent), old(scores)[score].position))
    {
      hide PlaceOf;
      ghost var held := Held();
      recent := Cut(recent, PlaceOf(recent, scores[score].position));
      scores := scores - {score};
      assert Held() == held - {score};
    }

    ghost predicate Fronted()
      reads this`recent, this`scores
    {
      recent != [] ==> recent[0].score in scores && scores[recent[0].score].position == recent[0].id
    }

    /** Stale histories are dropped, each once. */
    method Expire()
      requires Valid()
      modifies this`recent, this`scores
      ensures Valid() && View() == Expired(old(View())) && Footprint() <= old(Footprint())
    {
      hide Good;
      hide PlaceOf;
      hide Dropped;
      hide Expired;
      Front();
      while recent != [] && minute - scores[recent[0].score].window.observed >= 60
        invariant Valid() && Fronted() && Expired(View()) == Expired(old(View())) && Footprint() <= old(Footprint())
        decreases |recent|
      {
        DropFront();
      }
      assert !Stale(View());
      ExpiredStep(View());
    }

    method DropFront()
      requires Valid() && Stale(View()) && Fronted()
      modifies this`recent, this`scores
      ensures Valid() && Fronted() && Expired(View()) == Expired(old(View())) && Footprint() <= old(Footprint())
      ensures |recent| < |old(recent)|
    {
      hide Good;
      hide PlaceOf;
      hide Expired;
      hide Stale;
      assert recent != [] by { StaleFront(View()); }
      FrontPlace(recent);
      DroppedGood(View(), maximum, 0, logs) by { StaleFront(View()); }
      ExpiredStep(View());
      Remove(recent[0].score);
      Front();
    }

    /** Bring the cache to the minute of a time, unless it is not a time. */
    method Advance(now: real) returns (r: Option<int>)
      requires Valid()
      modifies this`recent, this`scores, this`minute
      ensures Valid() && Footprint() <= old(Footprint())
      ensures Minute(now) == None ==> r == None && View() == old(View())
      ensures Minute(now) != None ==>
        View() == Advanced(old(View()), Minute(now).value) && r == Some(minute) && minute >= 0
    {
      hide Good;
      hide Expired;
      var m := Minute(now);
      if m == None { return None; }
      LaterGood(View(), maximum, if m.value >= minute then m.value else minute);
      ghost var held := Held();
      if m.value >= minute { minute := m.value; }
      assert Held() == held;
      ExpiredGood(View(), maximum);
      Expire();
      return Some(minute);
    }

    /** A window is brought to the present and read; the others are not touched. */
    method ReadWindow(score: ScoreId) returns (t: Totals)
      requires Apart() && Rings() && score in scores && minute >= 0
      modifies scores[score].window, scores[score].window.buckets
      ensures Apart() && Rings()
      ensures Held() == old(Held())[score := Stored(Aged(old(Held())[score].window, minute), scores[score].position)]
      ensures t == Recent(Aged(old(Held())[score].window, minute))
    {
      hide RingOf;
      hide Sum;
      hide Sane;
      ghost var held := Held();
      var read := scores[score].window.ReadMinute(minute);
      assert Held() == held[score := Stored(Aged(held[score].window, minute), held[score].position)];
      t := read.value;
    }

    method Look(score: ScoreId) returns (t: Totals)
      requires Valid() && score in scores && minute >= 0
      modifies Footprint()
      ensures Valid() && View() == Read(old(View()), score) && t == Shown(old(View()), score)
    {
      hide Good;
      hide Rings;
      hide Recent;
      ReadGood(View(), maximum, score);
      t := ReadWindow(score);
    }

    /** The rate of a score now. */
    method Rate(score: ScoreId, now: real) returns (r: Option<real>)
      requires Valid()
      modifies this`recent, this`scores, this`minute, Footprint()
      ensures Valid()
      ensures Minute(now) == None ==> r == None && View() == old(View())
      ensures Minute(now) != None ==> View() == Read(Advanced(old(View()), Minute(now).value), score)
      ensures Minute(now) != None ==>
        r.Some? && Fits(r.value, LastHour(LogOf(View(), score), minute))
    {
      hide Good;
      hide Advanced;
      hide Sum;
      hide Smoothed;
      hide Fits;
      hide LastHour;
      var m := Advance(now);
      if m == None { return None; }
      ShownIsLog(View(), maximum, score);
      var t := NONE;
      if score in scores { t := Look(score); }
      RateFits(LogOf(View(), score), minute);
      return Some(Smoothed(t));
    }

    /** The bound costs the front of the list its history. */
    method Evict()
      requires Valid() && recent != []
      modifies this`recent, this`scores, this`logs
      ensures Apart() && Rings() && Footprint() <= old(Footprint()) && scores == old(scores) - {old(recent)[0].score}
      ensures View() == Dropped(old(View()), 0).(logs := old(logs) - {old(recent)[0].score})
    {
      hide Good;
      hide PlaceOf;
      hide Rings;
      Front();
      FrontPlace(recent);
      ghost var gone := recent[0].score;
      Remove(recent[0].score);
      ghost var held := Held();
      logs := logs - {gone};
      assert Held() == held;
    }

    /** A score gets an empty window and the last place. */
    method Open(score: ScoreId)
      requires Apart() && Rings() && score !in scores
      modifies this`recent, this`scores, this`next
      ensures Apart() && Rings() && fresh(Footprint() - old(Footprint())) && score in scores
      ensures View() == Opened(old(View()), score)
    {
      hide MinutePerformanceWindow.Valid;
      hide Unshared;
      hide Objects;
      ghost var feet := Footprint();
      assert allocated(feet);
      var window := new MinutePerformanceWindow();
      assert window !in feet && window.buckets !in feet;
      Assign(score, window);
    }

    /** A new window becomes the window of a score. */
    method Assign(score: ScoreId, window: MinutePerformanceWindow)
      requires Apart() && Rings() && score !in scores && window.Valid() && window.State() == EMPTY
      requires window !in Footprint() && window.buckets !in Footprint()
      modifies this`recent, this`scores, this`next
      ensures Apart() && Rings() && score in scores && Footprint() <= old(Footprint()) + {window, window.buckets}
      ensures View() == Opened(old(View()), score)
    {
      hide MinutePerformanceWindow.Valid;
      hide MinutePerformanceWindow.State;
      hide Unshared;
      ghost var held := Held();
      UnsharedMore(scores, score, Score(window, next));
      ObjectsMore(scores, score, Score(window, next));
      scores := scores[score := Score(window, next)];
      recent := recent + [Node(next, score)];
      next := next + 1;
      assert Held() == held[score := Stored(EMPTY, next - 1)];
    }

    /** A sample goes into a window; the others are not touched. */
    method RecordWindow(score: ScoreId, valid: bool, seconds: real) returns (recorded: bool)
      requires Apart() && Rings() && score in scores && minute >= 0 && seconds >= 0.0
      modifies scores[score].window, scores[score].window.buckets
      ensures Apart() && Rings()
      ensures recorded <==> Recent(Aged(old(Held())[score].window, minute)).attempts != MAX_ATTEMPTS
      ensures var aged := Aged(old(Held())[score].window, minute);
              var after := if recorded then Recorded(aged, valid, seconds) else aged;
              Held() == old(Held())[score := Stored(after, scores[score].position)]
    {
      hide RingOf;
      hide Sum;
      hide Sane;
      ghost var held := Held();
      var r := scores[score].window.RecordMinute(valid, seconds, minute);
      recorded := r.value;
      ghost var aged := Aged(held[score].window, minute);
      assert Held() ==
             held[score := Stored(if recorded then Recorded(aged, valid, seconds) else aged, held[score].position)];
    }

    /** A score without a history gets one, if need be at the cost of the front of the list. */
    method Admit(score: ScoreId)
      requires Valid()
      modifies this`recent, this`scores, this`next, this`logs
      ensures Apart() && Rings() && score in scores && fresh(Footprint() - old(Footprint()))
      ensures View() == Opened(Evicted(old(View()), score, maximum), score)
    {
      hide Good;
      hide Rings;
      hide Dropped;
      if score in scores { return; }
      if |recent| == maximum {
        assert Victim(View(), score, maximum) == Some(recent[0].score);
        Evict();
      }
      Open(score);
    }

    /** A sample goes into the history of a score, which moves to the end of the list. */
    method Take(score: ScoreId, valid: bool, seconds: real) returns (recorded: bool)
      requires Apart() && Rings() && score in scores && minute >= 0 && seconds >= 0.0
      modifies this`recent, this`logs, scores[score].window, scores[score].window.buckets
      ensures Apart() && Rings()
      ensures recorded <==> Shown(old(View()), score).attempts != 0xffff_ffff_ffff_ffff
      ensures View() == if recorded then Taken(old(View()), score, valid, seconds) else Read(old(View()), score)
    {
      hide Recent;
      hide Renewed;
      hide MinutePerformanceWindow.Valid;
      hide Unshared;
      recorded := RecordWindow(score, valid, seconds);
      if !recorded { return; }
      ghost var held := Held();
      recent := Renewed(recent, scores[score].position);
      logs := logs[score := (if score in logs then logs[score] else []) + [Sample(valid, seconds, minute)]];
      assert Held() == held;
    }

    /** Record a sample of a score in a cache that has been brought to the present. */
    method RecordNow(score: ScoreId, valid: bool, seconds: real) returns (recorded: bool)
      requires Valid() && minute >= 0 && seconds >= 0.0
      modifies this`recent, this`scores, this`next, this`logs, Footprint()
      ensures Valid() && fresh(Footprint() - old(Footprint()))
      ensures View() == Recording(old(View()), maximum, score, valid, seconds)
      ensures recorded ==> LogOf(View(), score) == LogOf(old(View()), score) + [Sample(valid, seconds, minute)]
    {
      hide Good;
      hide Rings;
      hide Opened;
      hide Evicted;
      hide Shown;
      hide Taken;
      hide Read;
      hide Unshared;
      hide Sum;
      RecordingGood(View(), maximum, score, valid, seconds);
      RecordingLogs(View(), maximum, score, valid, seconds, score);
      Admit(score);
      recorded := Take(score, valid, seconds);
    }

    /** Record a sample of a score: none if the time is no time, else whether it was taken. */
    method Record(score: ScoreId, valid: bool, seconds: real, now: real) returns (r: Option<bool>)
      requires Valid()
      modifies this`recent, this`scores, this`minute, this`next, this`logs, Footprint()
      ensures Valid() && fresh(Footprint() - old(Footprint()))
      ensures seconds < 0.0 ==> r == Some(false) && View() == old(View())
      ensures seconds >= 0.0 && Minute(now) == None ==> r == None && View() == old(View())
      ensures seconds >= 0.0 && Minute(now) != None ==>
        r.Some? && View() == Recording(Advanced(old(View()), Minute(now).value), maximum, score, valid, seconds)
      ensures r == Some(true) ==> LogOf(View(), score) == LogOf(old(View()), score) + [Sample(valid, seconds, minute)]
    {
      hide Valid;
      hide View;
      hide Advanced;
      hide Recording;
      hide Objects;
      if seconds < 0.0 { return Some(false); }
      Known(now);
      var m := Advance(now);
      if m == None { return None; }
      ghost var feet := Footprint();
      label Advanced:
      var recorded := RecordNow(score, valid, seconds);
      forall o | o in Footprint() && o !in old(Footprint()) ensures fresh(o) {
        assert o in Footprint() - feet;
        assert !old@Advanced(allocated(o));
      }
      return Some(recorded);
    }

    /** Bringing the cache to the present changes no log. */
    lemma Known(now: real)
      requires Valid()
      ensures Minute(now) != None ==>
        forall score :: LogOf(Advanced(View(), Minute(now).value), score) == LogOf(View(), score)
    {
      if Minute(now) != None { AdvancedGood(View(), maximum, Minute(now).value); }
    }

    /** The first node of the list is where its score takes it to be. */
    lemma Front()
      requires Good(View(), maximum)
      ensures Fronted()
    {
      if recent != [] { NodeOf(recent, Held(), next, 0); }
    }
  }

  lemma FrontPlace(recent: seq<Node>)
    requires recent != []
    ensures PlaceOf(recent, recent[0].id) == 0
  {
  }

  lemma StaleFront(c: Cache)
    requires Stale(c)
    ensures c.recent != [] && c.minute - Observed(c.stored, c.recent[0].score) >= 60
  {
  }

  lemma ExpiredStep(c: Cache)
    ensures Expired(c) == if Stale(c) then Expired(Dropped(c, 0)) else c
  {
  }
}
