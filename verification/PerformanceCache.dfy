/**
  The bounded cache of endpoint histories: a list ordered by last observation,
  whose nodes the scores point to. Dropping stale histories lazily is never seen
  by a reader; only the bound on their number is.
*/
module PerformanceCache {
  import opened Outcomes
  import opened PerformanceHistory

  type ScoreId = nat

  const MAX_MINUTE: int := 0x7fff_ffff_ffff_ffff

  /** The minute of a monotonic time; none if it is not a time. */
  function Minute(seconds: real): (m: Option<int>)
    ensures m.Some? <==> 0.0 <= seconds && seconds / 60.0 < MAX_MINUTE as real
    ensures m.Some? ==> 0 <= m.value && m.value as real * 60.0 <= seconds < (m.value + 1) as real * 60.0
  {
    if seconds < 0.0 || seconds / 60.0 >= MAX_MINUTE as real then None else Some((seconds / 60.0).Floor)
  }

  /** A list node: its own identity, and the score it stands for. */
  datatype Node = Node(id: nat, score: ScoreId)

  /** What a score holds of the cache: its window, and the list node it takes it to be at. */
  datatype Stored = Stored(window: History, position: nat)

  predicate Distinct(recent: seq<Node>) {
    forall i, k :: 0 <= i < k < |recent| ==> recent[i].id != recent[k].id
  }

  /** Every node belongs to a score that points back to it, and every window has its node. */
  predicate Listed(recent: seq<Node>, stored: map<ScoreId, Stored>, next: nat) {
    Distinct(recent) &&
    (forall n :: n in recent ==> n.score in stored && stored[n.score].position == n.id && n.id < next) &&
    (forall score :: score in stored ==> Node(stored[score].position, score) in recent)
  }

  /** When the history of a score was last observed. */
  function Observed(stored: map<ScoreId, Stored>, score: ScoreId): int {
    if score in stored then stored[score].window.observed else -1
  }

  /** The list runs from the least to the most recently observed. */
  predicate Ordered(recent: seq<Node>, stored: map<ScoreId, Stored>) {
    forall i, k :: 0 <= i < k < |recent| ==> Observed(stored, recent[i].score) <= Observed(stored, recent[k].score)
  }

  /** The samples kept are the newest of a log; what is missing has expired. */
  predicate Keeps(kept: seq<Sample>, log: seq<Sample>, minute: int) {
    |kept| <= |log| && kept == log[|log| - |kept|..] && forall i :: 0 <= i < |log| - |kept| ==>
      log[i].minute <= minute - 60
  }

  lemma {:induction false} KeepsSum(kept: seq<Sample>, log: seq<Sample>, minute: int)
    requires Keeps(kept, log, minute)
    ensures Sum(kept, minute - 59, minute) == Sum(log, minute - 59, minute)
    decreases |kept|
  {
    if kept == [] {
      SumNone(log, minute - 59, minute);
    } else {
      var n, m := |kept| - 1, |log| - 1;
      assert kept[n] == log[m] && kept[..n] == log[..m][m - n..];
      KeepsSum(kept[..n], log[..m], minute);
    }
  }

  lemma KeepsLater(kept: seq<Sample>, log: seq<Sample>, minute: int, later: int)
    requires Keeps(kept, log, minute) && minute <= later
    ensures Keeps(kept, log, later)
  {
  }

  /** A window that is stale as a whole can be dropped. */
  lemma KeepsNone(kept: seq<Sample>, log: seq<Sample>, minute: int)
    requires Keeps(kept, log, minute) && forall i :: 0 <= i < |kept| ==> kept[i].minute <= minute - 60
    ensures Keeps([], log, minute)
  {
    forall i | 0 <= i < |log| ensures log[i].minute <= minute - 60 {
      if i >= |log| - |kept| { assert log[i] == kept[i - (|log| - |kept|)]; }
    }
  }

  lemma KeepsRecorded(kept: seq<Sample>, log: seq<Sample>, minute: int, x: Sample)
    requires Keeps(kept, log, minute)
    ensures Keeps(kept + [x], log + [x], minute)
  {
    assert (log + [x])[|log| - |kept|..] == log[|log| - |kept|..] + [x];
  }

  // -----------------------------------------------------------------
  // Taking a node off the list, and putting one at its end
  // -----------------------------------------------------------------

  function Cut(recent: seq<Node>, i: nat): seq<Node>
    requires i < |recent|
  {
    recent[..i] + recent[i + 1..]
  }

  /** What is left of the list after a cut. */
  lemma CutHas(recent: seq<Node>, i: nat, n: Node)
    requires Distinct(recent) && i < |recent|
    ensures n in Cut(recent, i) <==> n in recent && n != recent[i]
  {
    var rest := Cut(recent, i);
    if n in rest {
      var k :| 0 <= k < |rest| && rest[k] == n;
      assert n == recent[if k < i then k else k + 1];
    }
    if n in recent && n != recent[i] {
      var k :| 0 <= k < |recent| && recent[k] == n;
      assert rest[if k < i then k else k - 1] == n;
    }
  }

  lemma CutListed(recent: seq<Node>, stored: map<ScoreId, Stored>, next: nat, i: nat)
    requires Listed(recent, stored, next) && i < |recent|
    ensures Listed(Cut(recent, i), stored - {recent[i].score}, next)
  {
    var rest, left := Cut(recent, i), stored - {recent[i].score};
    assert Distinct(rest);
    hide Distinct;
    hide Cut;
    forall n | n in rest ensures n.score in left && left[n.score].position == n.id && n.id < next {
      CutHas(recent, i, n);
      assert recent[i] in recent;
    }
    forall score | score in left ensures Node(left[score].position, score) in rest {
      CutHas(recent, i, Node(left[score].position, score));
    }
  }

  lemma NodeOf(recent: seq<Node>, stored: map<ScoreId, Stored>, next: nat, i: nat)
    requires Listed(recent, stored, next) && i < |recent|
    ensures recent[i].score in stored && stored[recent[i].score].position == recent[i].id
  {
    assert recent[i] in recent;
  }

  /** The score of a node that is cut is not on the list any more. */
  lemma CutGone(recent: seq<Node>, stored: map<ScoreId, Stored>, next: nat, i: nat)
    requires Listed(recent, stored, next) && i < |recent|
    ensures forall k :: 0 <= k < |recent| - 1 ==>
      Cut(recent, i)[k].score != recent[i].score && Cut(recent, i)[k].id != recent[i].id
  {
    var rest := Cut(recent, i);
    forall k | 0 <= k < |rest| ensures rest[k].score != recent[i].score && rest[k].id != recent[i].id {
      var m := if k < i then k else k + 1;
      assert rest[k] == recent[m];
      NodeOf(recent, stored, next, m);
      NodeOf(recent, stored, next, i);
    }
  }

  lemma CutOrdered(recent: seq<Node>, stored: map<ScoreId, Stored>, next: nat, i: nat)
    requires Listed(recent, stored, next) && Ordered(recent, stored) && i < |recent|
    ensures Ordered(Cut(recent, i), stored - {recent[i].score})
  {
    hide Listed;
    var rest, left := Cut(recent, i), stored - {recent[i].score};
    CutGone(recent, stored, next, i);
    forall k, m | 0 <= k < m < |rest|
      ensures Observed(left, rest[k].score) <= Observed(left, rest[m].score)
    {
      assert rest[k] == recent[if k < i then k else k + 1] && rest[m] == recent[if m < i then m else m + 1];
    }
  }

  /** A new or renewed history goes to the end. */
  lemma PlacedListed(recent: seq<Node>, stored: map<ScoreId, Stored>, next: nat, score: ScoreId, s: Stored)
    requires Listed(recent, stored, next) && score !in stored && s.position < next && forall n :: n in recent ==>
      n.id != s.position
    ensures Listed(recent + [Node(s.position, score)], stored[score := s], next)
  {
  }

  lemma PlacedOrdered(recent: seq<Node>, stored: map<ScoreId, Stored>, next: nat, score: ScoreId, s: Stored)
    requires Listed(recent, stored, next) && Ordered(recent, stored) && score !in stored
    requires forall other :: other in stored ==> stored[other].window.observed <= s.window.observed
    ensures Ordered(recent + [Node(s.position, score)], stored[score := s])
  {
    var after := recent + [Node(s.position, score)];
    forall k | 0 <= k < |recent| ensures after[k].score in stored && after[k].score != score {
      assert recent[k] in recent;
    }
  }

  // -----------------------------------------------------------------
  // The cache as a value
  // -----------------------------------------------------------------

  /**
    The cache, with the samples recorded for each score since the bound last cost
    the score its history. Nothing looks at the logs: they are what a reader expects.
  */
  datatype Cache = Cache(recent: seq<Node>, stored: map<ScoreId, Stored>, minute: int, next: nat, logs: map<ScoreId,
                         seq<Sample>>)

  const START: Cache := Cache([], map[], -1, 0, map[])

  function LogOf(c: Cache, score: ScoreId): seq<Sample> {
    if score in c.logs then c.logs[score] else []
  }

  function KeptOf(c: Cache, score: ScoreId): seq<Sample> {
    if score in c.stored then c.stored[score].window.samples else []
  }

  /** A window in the cache has been observed, and its clock is not ahead. */
  predicate WindowGood(w: History, minute: int) {
    Sane(w) && 0 <= w.observed && w.minute <= minute
  }

  ghost predicate Good(c: Cache, maximum: nat) {
    Listed(c.recent, c.stored, c.next) && Ordered(c.recent, c.stored) && |c.recent| <= maximum && -1 <= c.minute &&
    (forall score :: score in c.stored ==> WindowGood(c.stored[score].window, c.minute)) &&
    (forall score :: Keeps(KeptOf(c, score), LogOf(c, score), c.minute))
  }

  /** The history at a place of the list is dropped. */
  function Dropped(c: Cache, i: nat): Cache
    requires i < |c.recent|
  {
    c.(recent := Cut(c.recent, i), stored := c.stored - {c.recent[i].score})
  }

  predicate Stale(c: Cache) {
    c.recent != [] && c.minute - Observed(c.stored, c.recent[0].score) >= 60
  }

  /** Stale histories are dropped from the front of the list. */
  function Expired(c: Cache): Cache
    decreases |c.recent|
  {
    if Stale(c) then Expired(Dropped(c, 0)) else c
  }

  function Advanced(c: Cache, minute: int): Cache {
    Expired(c.(minute := if minute >= c.minute then minute else c.minute))
  }

  /** What a reader is shown. */
  function Shown(c: Cache, score: ScoreId): Totals {
    if score in c.stored then Recent(Aged(c.stored[score].window, c.minute)) else NONE
  }

  function Put(c: Cache, score: ScoreId, window: History): Cache
    requires score in c.stored
  {
    c.(stored := c.stored[score := Stored(window, c.stored[score].position)])
  }

  function Read(c: Cache, score: ScoreId): Cache {
    if score in c.stored then Put(c, score, Aged(c.stored[score].window, c.minute)) else c
  }

  /** Whose history a new score would cost. */
  function Victim(c: Cache, score: ScoreId, maximum: nat): Option<ScoreId> {
    if score !in c.stored && |c.recent| == maximum && c.recent != [] then Some(c.recent[0].score) else None
  }

  function Evicted(c: Cache, score: ScoreId, maximum: nat): Cache {
    if Victim(c, score, maximum) == None then c else Dropped(c, 0).(logs := c.logs - {c.recent[0].score})
  }

  /** Room for a new score is made, and its empty window takes the last place. */
  function Opened(c: Cache, score: ScoreId): Cache {
    if score in c.stored then c
    else c.(recent := c.recent + [Node(c.next, score)], stored := c.stored[score := Stored(EMPTY, c.next)],
            next := c.next + 1)
  }

  /** A sample is added, and the history goes to the end of the list. */
  function Taken(c: Cache, score: ScoreId, valid: bool, seconds: real): Cache
    requires score in c.stored
  {
    var window := Recorded(Aged(c.stored[score].window, c.minute), valid, seconds);
    var log := LogOf(c, score) + [Sample(valid, seconds, c.minute)];
    Put(c, score, window).(recent := Renewed(c.recent, c.stored[score].position), logs := c.logs[score := log])
  }

  /** The place on the list of a position. */
  function PlaceOf(recent: seq<Node>, position: nat): (i: nat)
    ensures i <= |recent| && (i < |recent| ==> recent[i].id == position)
    ensures forall k :: 0 <= k < i ==> recent[k].id != position
  {
    if recent == [] || recent[0].id == position then 0 else 1 + PlaceOf(recent[1..], position)
  }

  function Renewed(recent: seq<Node>, position: nat): seq<Node> {
    var i := PlaceOf(recent, position);
    if i < |recent| then Cut(recent, i) + [recent[i]] else recent
  }

  /** A sample comes to a cache that has been brought to the present. */
  function Recording(c: Cache, maximum: nat, score: ScoreId, valid: bool, seconds: real): Cache {
    var d := Opened(Evicted(c, score, maximum), score);
    if Shown(d, score).attempts == MAX_ATTEMPTS then Read(d, score) else Taken(d, score, valid, seconds)
  }

  // -----------------------------------------------------------------
  // Every step keeps the cache good
  // -----------------------------------------------------------------

  lemma LaterGood(c: Cache, maximum: nat, minute: int)
    requires Good(c, maximum) && c.minute <= minute
    ensures Good(c.(minute := minute), maximum)
  {
    hide Keeps;
    var d := c.(minute := minute);
    forall score ensures Keeps(KeptOf(d, score), LogOf(d, score), minute) {
      KeepsLater(KeptOf(c, score), LogOf(c, score), c.minute, minute);
    }
  }

  /** A history can go when it is stale, or when its log goes with it. */
  lemma DroppedGood(c: Cache, maximum: nat, i: nat, logs: map<ScoreId, seq<Sample>>)
    requires Good(c, maximum) && i < |c.recent|
    requires (logs == c.logs && c.minute - Observed(c.stored, c.recent[i].score) >= 60) || logs ==
             c.logs - {c.recent[i].score}
    ensures Good(Dropped(c, i).(logs := logs), maximum)
  {
    hide Keeps;
    hide Listed;
    hide Ordered;
    var d, gone := Dropped(c, i).(logs := logs), c.recent[i].score;
    CutListed(c.recent, c.stored, c.next, i);
    CutOrdered(c.recent, c.stored, c.next, i);
    forall score ensures Keeps(KeptOf(d, score), LogOf(d, score), d.minute) {
      if score == gone && gone in logs {
        NodeOf(c.recent, c.stored, c.next, i);
        KeepsNone(KeptOf(c, score), LogOf(c, score), c.minute);
      } else if score == gone {
        KeepsNothing(c.minute);
      } else {
        assert Keeps(KeptOf(c, score), LogOf(c, score), c.minute);
      }
    }
  }

  lemma KeepsNothing(minute: int)
    ensures Keeps([], [], minute)
  {
  }

  lemma {:induction false} ExpiredGood(c: Cache, maximum: nat)
    requires Good(c, maximum)
    ensures Good(Expired(c), maximum) && Expired(c).minute == c.minute && Expired(c).logs == c.logs &&
            !Stale(Expired(c))
    decreases |c.recent|
  {
    if Stale(c) {
      DroppedGood(c, maximum, 0, c.logs);
      ExpiredGood(Dropped(c, 0), maximum);
    }
  }

  lemma PutListed(recent: seq<Node>, stored: map<ScoreId, Stored>, next: nat, score: ScoreId, w: History)
    requires Listed(recent, stored, next) && score in stored
    ensures Listed(recent, stored[score := Stored(w, stored[score].position)], next)
  {
  }

  lemma PutOrdered(recent: seq<Node>, stored: map<ScoreId, Stored>, score: ScoreId, w: History)
    requires Ordered(recent, stored) && score in stored && w.observed == stored[score].window.observed
    ensures Ordered(recent, stored[score := Stored(w, stored[score].position)])
  {
    var after := stored[score := Stored(w, stored[score].position)];
    forall i | 0 <= i < |recent| ensures Observed(after, recent[i].score) == Observed(stored, recent[i].score) {}
  }

  lemma ReadGood(c: Cache, maximum: nat, score: ScoreId)
    requires Good(c, maximum)
    ensures Good(Read(c, score), maximum)
  {
    hide Keeps;
    hide Listed;
    hide Ordered;
    var d := Read(c, score);
    if score in c.stored {
      PutListed(c.recent, c.stored, c.next, score, Aged(c.stored[score].window, c.minute));
      PutOrdered(c.recent, c.stored, score, Aged(c.stored[score].window, c.minute));
    }
    forall other ensures Keeps(KeptOf(d, other), LogOf(d, other), d.minute) {
      assert Keeps(KeptOf(c, other), LogOf(c, other), c.minute);
    }
  }

  /** Theorem: what a reader is shown is what the log of the score holds of the last sixty minutes. */
  lemma ShownIsLog(c: Cache, maximum: nat, score: ScoreId)
    requires Good(c, maximum)
    ensures Shown(c, score) == Sum(LogOf(c, score), c.minute - 59, c.minute) && Shown(c, score).seconds >= 0.0
  {
    SumNotNegative(KeptOf(c, score), c.minute - 59, c.minute);
    assert Keeps(KeptOf(c, score), LogOf(c, score), c.minute);
    KeepsSum(KeptOf(c, score), LogOf(c, score), c.minute);
  }

  lemma EvictedGood(c: Cache, maximum: nat, score: ScoreId)
    requires Good(c, maximum) && maximum > 0
    ensures Good(Evicted(c, score, maximum), maximum)
    ensures score in c.stored <==> score in Evicted(c, score, maximum).stored
    ensures score !in c.stored ==> |Evicted(c, score, maximum).recent| < maximum
  {
    hide Keeps;
    hide Ordered;
    if Victim(c, score, maximum) != None {
      DroppedGood(c, maximum, 0, c.logs - {c.recent[0].score});
    }
  }

  /** A history that is not on the list, observed now, goes to its end. */
  lemma PlacedGood(c: Cache, maximum: nat, score: ScoreId, s: Stored, next: nat, log: seq<Sample>)
    requires Good(c, maximum) && score !in c.stored && |c.recent| < maximum
    requires c.next <= next && s.position < next && forall n :: n in c.recent ==> n.id != s.position
    requires WindowGood(s.window, c.minute) && s.window.observed == c.minute && Keeps(s.window.samples, log, c.minute)
    ensures Good(Cache(c.recent + [Node(s.position, score)], c.stored[score := s], c.minute, next,
                       c.logs[score := log]), maximum)
  {
    hide Keeps;
    var d := Cache(c.recent + [Node(s.position, score)], c.stored[score := s], c.minute, next, c.logs[score := log]);
    ListedMore(c.recent, c.stored, c.next, next);
    PlacedListed(c.recent, c.stored, next, score, s);
    PlacedOrdered(c.recent, c.stored, next, score, s);
    forall other ensures Keeps(KeptOf(d, other), LogOf(d, other), d.minute) {
      assert Keeps(KeptOf(c, other), LogOf(c, other), c.minute);
    }
  }

  lemma ListedMore(recent: seq<Node>, stored: map<ScoreId, Stored>, next: nat, more: nat)
    requires Listed(recent, stored, next) && next <= more
    ensures Listed(recent, stored, more)
  {
  }

  /** The node of a score is where its position says. */
  lemma NodePlace(recent: seq<Node>, stored: map<ScoreId, Stored>, next: nat, score: ScoreId)
    requires Listed(recent, stored, next) && score in stored
    ensures PlaceOf(recent, stored[score].position) < |recent|
    ensures recent[PlaceOf(recent, stored[score].position)] == Node(stored[score].position, score)
  {
    var n := Node(stored[score].position, score);
    var k :| 0 <= k < |recent| && recent[k] == n;
    assert recent[k].id == stored[score].position;
  }

  lemma RenewedGood(c: Cache, maximum: nat, score: ScoreId, valid: bool, seconds: real)
    requires Good(c, maximum) && score in c.stored && 0 <= c.minute && seconds >= 0.0
    ensures Good(Taken(c, score, valid, seconds), maximum)
  {
    hide Keeps;
    hide Listed;
    hide Ordered;
    hide PlaceOf;
    var x := Sample(valid, seconds, c.minute);
    var w, position := Recorded(Aged(c.stored[score].window, c.minute), valid, seconds), c.stored[score].position;
    NodePlace(c.recent, c.stored, c.next, score);
    var i := PlaceOf(c.recent, position);
    CutGone(c.recent, c.stored, c.next, i);
    NodesBelow(c.recent, c.stored, c.next, i);
    DroppedGood(c, maximum, i, c.logs - {score});
    assert Keeps(KeptOf(c, score), LogOf(c, score), c.minute);
    KeepsRecorded(KeptOf(c, score), LogOf(c, score), c.minute, x);
    var log := LogOf(c, score) + [x];
    var d := Dropped(c, i).(logs := c.logs - {score});
    PlacedGood(d, maximum, score, Stored(w, position), c.next, log);
    assert d.stored[score := Stored(w, position)] == c.stored[score := Stored(w, position)];
    assert d.logs[score := log] == c.logs[score := log];
  }

  lemma NodesBelow(recent: seq<Node>, stored: map<ScoreId, Stored>, next: nat, i: nat)
    requires Listed(recent, stored, next) && i < |recent|
    ensures recent[i].id < next
  {
    assert recent[i] in recent;
  }

  lemma OpenedGood(c: Cache, maximum: nat, score: ScoreId, valid: bool, seconds: real)
    requires Good(c, maximum) && score !in c.stored && |c.recent| < maximum && 0 <= c.minute && seconds >= 0.0
    ensures Good(Taken(Opened(c, score), score, valid, seconds), maximum)
  {
    hide Keeps;
    hide Listed;
    hide Ordered;
    hide Taken;
    hide Opened;
    hide Recorded;
    hide Aged;
    hide WindowGood;
    var x := Sample(valid, seconds, c.minute);
    var w := Recorded(Aged(EMPTY, c.minute), valid, seconds);
    assert KeptOf(c, score) == [] && Keeps(KeptOf(c, score), LogOf(c, score), c.minute);
    KeepsRecorded([], LogOf(c, score), c.minute, x);
    assert [] + [x] == [x];
    FirstSample(c.minute, valid, seconds);
    NoneNamed(c.recent, c.stored, c.next);
    PlacedGood(c, maximum, score, Stored(w, c.next), c.next + 1, LogOf(c, score) + [x]);
    OpenedTaken(c, score, valid, seconds);
  }

  lemma FirstSample(minute: int, valid: bool, seconds: real)
    requires minute >= 0 && seconds >= 0.0
    ensures var w := Recorded(Aged(EMPTY, minute), valid, seconds);
            WindowGood(w, minute) && w.observed == minute && w.samples == [Sample(valid, seconds, minute)]
  {
  }

  lemma OpenedTaken(c: Cache, score: ScoreId, valid: bool, seconds: real)
    requires score !in c.stored && forall n :: n in c.recent ==> n.id != c.next
    ensures var w := Recorded(Aged(EMPTY, c.minute), valid, seconds);
            Taken(Opened(c, score), score, valid, seconds) ==
            Cache(c.recent + [Node(c.next, score)], c.stored[score := Stored(w, c.next)], c.minute, c.next + 1,
                  c.logs[score := LogOf(c, score) + [Sample(valid, seconds, c.minute)]])
  {
    hide Renewed;
    LastPlace(c.recent, Node(c.next, score));
    var w := Recorded(Aged(EMPTY, c.minute), valid, seconds);
    assert c.stored[score := Stored(EMPTY, c.next)][score := Stored(w, c.next)] == c.stored[score := Stored(w, c.next)];
  }

  lemma NoneNamed(recent: seq<Node>, stored: map<ScoreId, Stored>, next: nat)
    requires Listed(recent, stored, next)
    ensures forall n :: n in recent ==> n.id != next
  {
  }

  lemma LastPlace(recent: seq<Node>, n: Node)
    requires forall k :: k in recent ==> k.id != n.id
    ensures Renewed(recent + [n], n.id) == recent + [n]
  {
    var more := recent + [n];
    forall k | 0 <= k < |recent| ensures more[k].id != n.id { assert recent[k] in recent; }
    assert more[|recent|].id == n.id;
  }

  lemma RecordingGood(c: Cache, maximum: nat, score: ScoreId, valid: bool, seconds: real)
    requires Good(c, maximum) && 0 <= c.minute && maximum > 0 && seconds >= 0.0
    ensures Good(Recording(c, maximum, score, valid, seconds), maximum)
  {
    hide Good;
    var d := Evicted(c, score, maximum);
    EvictedGood(c, maximum, score);
    if score in c.stored {
      if Shown(d, score).attempts == MAX_ATTEMPTS {
        ReadGood(d, maximum, score);
      } else {
        RenewedGood(d, maximum, score, valid, seconds);
      }
    } else {
      OpenedGood(d, maximum, score, valid, seconds);
    }
  }

  /** Bringing a good cache to the present. */
  lemma AdvancedGood(c: Cache, maximum: nat, minute: int)
    requires Good(c, maximum)
    ensures Good(Advanced(c, minute), maximum) && Advanced(c, minute).logs == c.logs
    ensures Advanced(c, minute).minute == (if minute >= c.minute then minute else c.minute)
  {
    hide Good;
    hide Expired;
    var now := if minute >= c.minute then minute else c.minute;
    LaterGood(c, maximum, now);
    ExpiredGood(c.(minute := now), maximum);
  }

  /** What a recording does to the logs. */
  lemma RecordingLogs(c: Cache, maximum: nat, score: ScoreId, valid: bool, seconds: real, other: ScoreId)
    requires Good(c, maximum) && maximum > 0 && c.minute >= 0
    ensures Recording(c, maximum, score, valid, seconds).minute == c.minute && Victim(c, score, maximum) != Some(score)
    ensures Shown(Opened(Evicted(c, score, maximum), score), score) == Sum(LogOf(c, score), c.minute - 59, c.minute)
    ensures LogOf(Recording(c, maximum, score, valid, seconds), other) ==
            if Victim(c, score, maximum) == Some(other) then []
            else if score == other && Sum(LogOf(c, score), c.minute - 59, c.minute).attempts != MAX_ATTEMPTS
            then LogOf(c, score) + [Sample(valid, seconds, c.minute)] else LogOf(c, other)
  {
    hide Good;
    hide Renewed;
    hide Sum;
    ShownIsLog(c, maximum, score);
    SumNone([], c.minute - 59, c.minute);
    if score !in c.stored { NotOnList(c, maximum, score); }
  }

  /** Only a score with a history can lose it. */
  lemma NotOnList(c: Cache, maximum: nat, score: ScoreId)
    requires Good(c, maximum) && score !in c.stored
    ensures c.recent != [] ==> c.recent[0].score != score
  {
    if c.recent != [] { NodeOf(c.recent, c.stored, c.next, 0); }
  }
}
