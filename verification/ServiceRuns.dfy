/**
  Runs of the service: any sequence of actions of any threads. Everything that
  the other modules keep holds at every state of every run, and what they say
  of one step adds up to what is promised about whole runs.
*/
module ServiceRuns {
  import opened BudgetCutoff
  import opened ServiceState
  import opened ServiceSteps
  import opened ServiceActions
  import opened ServiceShape
  import opened ServiceShapeKept
  import opened ServiceRecords
  import opened ServiceCounts
  import opened ServiceBudgets
  import opened ServiceWake
  import opened ServiceFrames
  import opened ServiceEnding
  import opened ServicePermits
  import opened ServiceAdmission
  import opened ServiceProgress
  import opened ServiceShutdown

  /** Everything that holds in every reachable state. */
  ghost predicate Sound(s: Service) {
    Shape(s) && Records(s) && Counts(s) && OvershootBounded(s) && NobodyMissed(s) && Stories(s) && Endings(s) &&
    ArrivalOrder(s) && s.config.rate >= 1 && Paced(s) && AdmissionOk(s) && NobodyLeftBehind(s) &&
    Reopened(s)
  }

  /** A run: its states, and the actions between them. */
  ghost predicate StepAt(states: seq<Service>, actions: seq<Action>, i: nat)
    requires |states| == |actions| + 1 && i < |actions|
  {
    Possible(states[i], actions[i]) && states[i + 1] == Apply(states[i], actions[i])
  }

  ghost predicate Run(states: seq<Service>, actions: seq<Action>, config: Config, start: real) {
    GoodConfig(config) && |states| == |actions| + 1 && states[0] == Init(config, start) &&
    forall i :: 0 <= i < |actions| ==> StepAt(states, actions, i)
  }

  lemma LengthOf(states: seq<Service>, actions: seq<Action>, config: Config, start: real)
    requires Run(states, actions, config, start)
    ensures |states| == |actions| + 1
  {
    hide StepAt;
  }

  lemma StepOf(states: seq<Service>, actions: seq<Action>, config: Config, start: real, i: nat)
    requires Run(states, actions, config, start) && i < |actions|
    ensures |states| == |actions| + 1 && Possible(states[i], actions[i]) &&
            states[i + 1] == Apply(states[i], actions[i])
  {
    hide Possible;
    hide Apply;
    assert StepAt(states, actions, i);
  }

  lemma SoundParts(s: Service)
    requires Sound(s)
    ensures Shape(s) && Records(s) && AdmissionOk(s) && Reopened(s) && s.config.rate >= 1 && Paced(s)
  {
  }

  lemma InitSound(config: Config, start: real)
    requires GoodConfig(config)
    ensures Sound(Init(config, start))
  {
    InitShape(config, start);
    InitCounts(config, start);
    hide Counts;
    hide Shape;
    hide GoodConfig;
    hide FramesOf;
    hide Story;
    hide Complete;
    hide Coherent;
  }

  lemma ShapeStays(s: Service, a: Action)
    requires Shape(s) && Possible(s, a)
    ensures Shape(Apply(s, a)) && Apply(s, a).config == s.config
  {
    ShapeKept(s, a);
    ConfigKept(s, a);
    hide Apply;
    hide Shape;
  }

  /** Theorem: every action keeps everything. */
  lemma SoundKept(s: Service, a: Action)
    requires Sound(s) && Possible(s, a)
    ensures Sound(Apply(s, a))
  {
    hide Possible;
    hide Apply;
    hide Shape;
    hide Records;
    hide Counts;
    hide Tallies;
    hide OvershootBounded;
    hide NobodyMissed;
    hide Stories;
    hide Endings;
    hide ArrivalOrder;
    hide Paced;
    hide AdmissionOk;
    hide NobodyLeftBehind;
    hide Reopened;
    ShapeStays(s, a);
    ShutdownKept(s, a);
    RecordsStay(s, a);
    CountsKept(s, a);
    OvershootKept(s, a);
    WakeKept(s, a);
    UsersOf(s);
    StoriesKept(s, a);
    EndingsKept(s, a);
    ArrivalOrderKept(s, a);
    PacedKept(s, a);
    AdmissionKept(s, a);
    ReopenedKept(s, a);
  }

  lemma RecordsStay(s: Service, a: Action)
    requires Shape(s) && Records(s) && Possible(s, a)
    ensures Records(Apply(s, a))
    ensures forall id :: id in s.table ==> id in Apply(s, a).table && Onward(s.table[id], Apply(s, a).table[id])
  {
    RecordsKept(s, a);
    hide Shape;
    hide Apply;
    hide Enabled;
  }

  lemma UsersOf(s: Service)
    requires Counts(s)
    ensures UsersExact(s)
  {
  }

  /** Theorem: every state of every run is sound. */
  lemma {:induction false} RunSound(states: seq<Service>, actions: seq<Action>, config: Config, start: real, i: nat)
    requires Run(states, actions, config, start) && i < |states|
    ensures Sound(states[i])
  {
    hide Sound;
    if i == 0 {
      InitSound(config, start);
    } else {
      RunSound(states, actions, config, start, i - 1);
      StepOf(states, actions, config, start, i - 1);
      SoundKept(states[i - 1], actions[i - 1]);
    }
  }

  // -----------------------------------------------------------------
  // Counting
  // -----------------------------------------------------------------

  /** A job only moves on. */
  lemma {:induction false} RanksGrow(states: seq<Service>, actions: seq<Action>, config: Config, start: real, i: nat,
                                     k: nat, id: JobId)
    requires Run(states, actions, config, start) && i <= k < |states| && id in states[i].table
    ensures id in states[k].table && Onward(states[i].table[id], states[k].table[id])
    decreases k
  {
    hide Sound;
    hide Possible;
    hide Apply;
    hide Shape;
    hide Records;
    hide Run;
    LengthOf(states, actions, config, start);
    if i < k {
      StepOf(states, actions, config, start, k - 1);
      RunSound(states, actions, config, start, k - 1);
      SoundParts(states[k - 1]);
      RanksGrow(states, actions, config, start, i, k - 1, id);
      RecordsStay(states[k - 1], actions[k - 1]);
    }
  }

  /** Theorem: over a whole run the outcome of a job is counted at most once. */
  lemma CountedOnce(states: seq<Service>, actions: seq<Action>, config: Config, start: real, i: nat, k: nat, id: JobId)
    requires Run(states, actions, config, start) && i < k < |actions|
    requires actions[i] == Record(id)
    ensures actions[k] != Record(id)
  {
    var s := states[i];
    StepOf(states, actions, config, start, i);
    StepOf(states, actions, config, start, k);
    OnRecord(s, id);
    RecordRank(s, id);
    RanksGrow(states, actions, config, start, i + 1, k, id);
    if actions[k] == Record(id) { OnRecord(states[k], id); }
    hide Apply;
  }

  lemma RecordRank(s: Service, id: JobId)
    requires Possible(s, Record(id))
    ensures id in Apply(s, Record(id)).table && Rank(Apply(s, Record(id)).table[id].phase) > Rank(s.table[id].phase)
  {
    hide Apply;
    hide Enabled;
    OnRecord(s, id);
    RecordPhase(s, id);
    hide DoRecord;
  }

  lemma RecordPhase(s: Service, id: JobId)
    requires id in s.table && s.table[id].phase.Ended?
    ensures id in DoRecord(s, id).table &&
            (DoRecord(s, id).table[id].phase.Recorded? || DoRecord(s, id).table[id].phase.Judging?)
  {
    hide BudgetBelowStop;
  }

  /** The jobs whose capture was counted for a bounty between two points of a run. */
  ghost function Recorders(states: seq<Service>, actions: seq<Action>, i: nat, k: nat, bounty: Bounty): set<JobId>
    requires i <= k <= |actions| && |states| == |actions| + 1
    decreases k
  {
    if i == k then {}
    else
      var before := Recorders(states, actions, i, k - 1, bounty);
      match actions[k - 1]
      case Record(id) =>
        if id in states[k - 1].table && states[k - 1].table[id].captured &&
        states[k - 1].table[id].bounty == bounty then before + {id} else before
      case _ => before
  }

  lemma RecordersRecorded(states: seq<Service>, actions: seq<Action>, i: nat, k: nat, bounty: Bounty, id: JobId)
    requires i <= k <= |actions| && |states| == |actions| + 1 && id in Recorders(states, actions, i, k, bounty)
    ensures exists m :: i <= m < k && actions[m] == Record(id)
    decreases k
  {
    if actions[k - 1] != Record(id) { RecordersRecorded(states, actions, i, k - 1, bounty, id); }
  }

  /** A counted capture adds its job to the recorders, and it was not one of them before. */
  lemma RecordersGrow(states: seq<Service>, actions: seq<Action>, config: Config, start: real, i: nat, k: nat,
                      bounty: Bounty)
    requires Run(states, actions, config, start) && i < k <= |actions|
    ensures |states| == |actions| + 1
    ensures var s, a := states[k - 1], actions[k - 1];
      |Recorders(states, actions, i, k, bounty)| == |Recorders(states, actions, i, k - 1, bounty)| +
        if a.Record? && a.id in s.table && s.table[a.id].captured && s.table[a.id].bounty == bounty then 1 else 0
  {
    hide Possible;
    hide Apply;
    hide StepAt;
    LengthOf(states, actions, config, start);
    hide Run;
    var before := Recorders(states, actions, i, k - 1, bounty);
    if actions[k - 1].Record? {
      var id := actions[k - 1].id;
      if id in before {
        RecordersRecorded(states, actions, i, k - 1, bounty, id);
        var m :| i <= m < k - 1 && actions[m] == Record(id);
        CountedOnce(states, actions, config, start, m, k - 1, id);
      }
      More(before, id);
    }
  }

  /**
    Theorem: while a budget stays resident, its count never falls, and what it
    gains beyond the controller's imports is at most one for each distinct job
    whose capture was counted.
  */
  lemma {:induction false} OneEach(states: seq<Service>, actions: seq<Action>, config: Config, start: real, i: nat,
                                   k: nat, bounty: Bounty)
    requires Run(states, actions, config, start) && i <= k < |states|
    requires forall m :: i <= m <= k ==> bounty in states[m].budgets
    ensures |states| == |actions| + 1
    ensures states[i].budgets[bounty].successes <= states[k].budgets[bounty].successes
    ensures states[k].budgets[bounty].successes <=
      Max(states[i].budgets[bounty].successes,
          states[k].budgets[bounty].largestImport) + |Recorders(states, actions, i, k, bounty)|
    decreases k
  {
    hide Sound;
    hide Apply;
    hide Possible;
    hide Run;
    LengthOf(states, actions, config, start);
    assert i == k ==> Recorders(states, actions, i, k, bounty) == {};
    hide Recorders;
    if i < k {
      StepOf(states, actions, config, start, k - 1);
      RunSound(states, actions, config, start, k - 1);
      OneEach(states, actions, config, start, i, k - 1, bounty);
      ImportRemembered(states[k - 1], actions[k - 1], bounty);
      RecordersGrow(states, actions, config, start, i, k, bounty);
    }
  }

  /** One step of a resident budget. */
  lemma ImportRemembered(s: Service, a: Action, bounty: Bounty)
    requires Sound(s) && Possible(s, a) && bounty in s.budgets && bounty in Apply(s, a).budgets
    ensures var b, c := s.budgets[bounty], Apply(s, a).budgets[bounty];
      b.successes <= c.successes && b.largestImport <= c.largestImport &&
      (c.successes == b.successes || c.successes <= c.largestImport ||
       (a.Record? && a.id in s.table && s.table[a.id].captured && s.table[a.id].bounty == bounty &&
        c.successes == b.successes + 1))
  {
    hide Apply;
    hide Possible;
    hide Sound;
    hide StopCount;
    SoundParts(s);
    CountsGrow(s, a, bounty);
    if a.SubmitAttempt? { ImportCount(s, a.id, a.domain, a.bounty, a.target, a.imported, a.victim, a.spawn); }
  }

  // -----------------------------------------------------------------
  // Pause and resume
  // -----------------------------------------------------------------

  lemma {:induction false} PauseRemembered(states: seq<Service>, actions: seq<Action>, config: Config, start: real,
                                           i: nat, k: nat)
    requires Run(states, actions, config, start) && i <= k < |states|
    ensures states[i].door.lastPause <= states[k].door.lastPause
    decreases k
  {
    hide Sound;
    hide Apply;
    hide Possible;
    hide AdmissionOk;
    hide Run;
    LengthOf(states, actions, config, start);
    if i < k {
      StepOf(states, actions, config, start, k - 1);
      RunSound(states, actions, config, start, k - 1);
      SoundParts(states[k - 1]);
      PauseRemembered(states, actions, config, start, i, k - 1);
      PausesGrow(states[k - 1], actions[k - 1]);
    }
  }

  /** A frame that is there later and was not there before was written in between. */
  lemma {:induction false} WrittenBetween(states: seq<Service>, i: nat, k: nat, f: Frame)
    requires i <= k < |states|
    requires f !in states[i].log.frames && f in states[k].log.frames
    ensures exists m :: i <= m < k && f !in states[m].log.frames && f in states[m + 1].log.frames
    decreases k
  {
    if f in states[k - 1].log.frames {
      WrittenBetween(states, i, k - 1, f);
    } else {
      assert f !in states[k - 1].log.frames && f in states[k - 1 + 1].log.frames;
    }
  }

  /** A permit means that the newest pause has been answered by a newer, acknowledged resume. */
  lemma PermitMeansOpen(s: Service, a: Action)
    requires Shape(s) && AdmissionOk(s) && Possible(s, a) && Apply(s, a).log.permits != s.log.permits &&
             s.door.lastPause > 0
    ensures s.door.lastPause < s.door.openedBy && Admission(s.door.openedBy, true) in s.log.frames
  {
    GrantIsSafe(s, a);
    hide Shape;
    hide Apply;
    hide Enabled;
  }

  /**
    Theorem: between an accepted pause and the next permit, a resume with a newer
    id than the pause was acknowledged to the controller.
  */
  lemma PauseHolds(states: seq<Service>, actions: seq<Action>, config: Config, start: real, i: nat, k: nat, p: nat)
    requires Run(states, actions, config, start) && i < k < |actions|
    requires actions[i] == AcceptAdmission(p, false)
    requires k + 1 < |states| && states[k + 1].log.permits != states[k].log.permits
    ensures exists m, r: nat ::
      i < m < k && r > p && Admission(r, true) !in states[m].log.frames &&
      Admission(r, true) in states[m + 1].log.frames
  {
    hide Sound;
    hide Shape;
    hide AdmissionOk;
    hide Possible;
    hide Apply;
    RunSound(states, actions, config, start, i);
    SoundParts(states[i]);
    RunSound(states, actions, config, start, k);
    SoundParts(states[k]);
    StepOf(states, actions, config, start, i);
    StepOf(states, actions, config, start, k);
    PauseCloses(states[i], p);
    PauseRemembered(states, actions, config, start, i + 1, k);
    hide Run;
    PermitMeansOpen(states[k], actions[k]);
    var r := states[k].door.openedBy;
    WrittenBetween(states, i + 1, k, Admission(r, true));
  }

  // -----------------------------------------------------------------
  // What the theorems say together
  // -----------------------------------------------------------------

  /** The permits of a run keep their distance, and leave in arrival order. */
  lemma PermitsOfRun(states: seq<Service>, actions: seq<Action>, config: Config, start: real, i: nat, k: nat)
    requires Run(states, actions, config, start)
    requires var ps := states[|actions|].log.permits; i < k < |ps|
    ensures var ps := states[|actions|].log.permits;
      ps[i].ticket < ps[k].ticket && ps[i].at <= ps[k].at &&
      ps[k].at - ps[i].at >= Steps(k - i - 1, config.rate) - 1.0
  {
    RunSound(states, actions, config, start, |actions|);
    ConfigOfRun(states, actions, config, start, |actions|);
    hide Shape;
    hide Counts;
    hide Records;
    hide Stories;
    hide Endings;
    hide Steps;
  }

  lemma {:induction false} ConfigOfRun(states: seq<Service>, actions: seq<Action>, config: Config, start: real, i: nat)
    requires Run(states, actions, config, start) && i < |states|
    ensures states[i].config == config
  {
    if i > 0 {
      ConfigOfRun(states, actions, config, start, i - 1);
      StepOf(states, actions, config, start, i - 1);
      ConfigKept(states[i - 1], actions[i - 1]);
    }
  }

  /** What a sound state says about one job. */
  lemma SoundJob(s: Service, id: JobId)
    requires Sound(s) && id in s.table
    ensures Shape(s) && Endings(s) && Coherent(s.table[id]) && Story(s.table[id], id, FramesOf(s.log.frames, id))
  {
    hide Shape;
    hide Coherent;
    hide Story;
    hide FramesOf;
    hide Counts;
    hide EndingOk;
  }

  /**
    Theorem: at every point of every run the controller has read at most one started, one capture and one terminal frame
    of a job, in this order and with one count.
  */
  lemma ToldOnce(states: seq<Service>, actions: seq<Action>, config: Config, start: real, i: nat, id: JobId)
    requires Run(states, actions, config, start) && i < |states| && id in states[i].table
    ensures WellTold(id, FramesOf(states[i].log.frames, id))
  {
    hide Sound;
    hide Run;
    hide FramesOf;
    RunSound(states, actions, config, start, i);
    SoundJob(states[i], id);
    StoryOnce(states[i].table[id], id, FramesOf(states[i].log.frames, id));
  }

  /** Theorem: in every run that has closed without a failure every job ever admitted has its one terminal frame. */
  lemma AllTerminated(states: seq<Service>, actions: seq<Action>, config: Config, start: real, i: nat, id: JobId)
    requires Run(states, actions, config, start) && i < |states| && id in states[i].table
    requires AtRest(states[i]) && !states[i].end.failed
    ensures var tr := FramesOf(states[i].log.frames, id);
            WellTold(id, tr) && tr != [] && tr[|tr| - 1].Terminal? && tr[|tr| - 1].id == id
  {
    hide Sound;
    hide Run;
    hide FramesOf;
    hide AtRest;
    ToldOnce(states, actions, config, start, i, id);
    RunSound(states, actions, config, start, i);
    SoundJob(states[i], id);
    EveryJobTold(states[i], id);
  }

  /** Theorem: in every run nobody sleeps on in a service that has closed, whether it was told to or has failed. */
  lemma ClosedLeavesNobody(states: seq<Service>, actions: seq<Action>, config: Config, start: real, i: nat, id: JobId)
    requires Run(states, actions, config, start) && i < |states| && id in states[i].table && states[i].end.closed
    ensures !states[i].table[id].SleepsUnnotified()
  {
    hide Run;
    hide Shape;
    hide Records;
    hide Counts;
    RunSound(states, actions, config, start, i);
  }

  /** In every reachable state the sections of the service find what they look up. */
  lemma LookupsSucceed(s: Service, id: JobId)
    requires Sound(s)
    ensures Increasing(s.tls.pending) && Increasing(s.dns.pending)
    ensures id in s.gate ==> id in s.table
    ensures id in s.live && id in s.table && s.table[id].attempt ==>
      s.table[id].bounty in s.budgets && s.budgets[s.table[id].bounty].users > 0
    ensures id in s.table && (id in s.gate || s.table[id].phase.Ended?) ==> s.table[id].bounty in s.budgets
  {
    assert LineShape(s, true) && LineShape(s, false) && GateShape(s);
    if id in s.gate { assert id in s.table; }
    if id in s.table { Places(s, id); }
    hide Shape;
    hide Sound;
    if id in s.live && id in s.table && s.table[id].attempt { assert id in LiveAttempts(s, s.table[id].bounty); }
  }
}
