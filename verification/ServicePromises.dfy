/**
  What the controller can rely on over whole runs of the service, beside what it is protected from: a gate that was
  resumed lets its head go on, and the pace is neither lost nor made up for.
*/
module ServicePromises {
  import opened ServiceState
  import opened ServiceSteps
  import opened ServiceActions
  import opened ServiceShape
  import opened ServiceRecords
  import opened ServiceFrames
  import opened ServiceAdmission
  import opened ServicePermits
  import opened ServiceProgress
  import opened ServiceRuns

  // -----------------------------------------------------------------
  // After a resume
  // -----------------------------------------------------------------

  /** While no further command comes, the newest one stays the newest. */
  lemma {:induction false} NewestRemembered(states: seq<Service>, actions: seq<Action>, config: Config, start: real,
                                            i: nat, k: nat, p: nat)
    requires Run(states, actions, config, start) && i <= k < |states| && Newest(states[i], p)
    requires forall m :: i <= m < k ==> !actions[m].AcceptAdmission?
    ensures Newest(states[k], p)
    ensures p !in states[i].door.admissions ==> p !in states[k].door.admissions
    decreases k
  {
    hide Apply;
    hide Possible;
    hide Newest;
    LengthOf(states, actions, config, start);
    if i < k {
      NewestRemembered(states, actions, config, start, i, k - 1, p);
      StepOf(states, actions, config, start, k - 1);
      NewestStays(states[k - 1], actions[k - 1], p);
    }
  }

  /** Once the newest command is a resume that has been dealt with, the gate of a working service is open. */
  lemma ResumeOpens(states: seq<Service>, actions: seq<Action>, config: Config, start: real, m: nat, j: nat, i: nat,
                    p: nat)
    requires Run(states, actions, config, start) && m < j < i < |states|
    requires actions[m] == AcceptAdmission(p, true) && actions[j] == FinishResume(p)
    requires forall n :: m < n < i ==> !actions[n].AcceptAdmission?
    requires !states[i].end.closed && !states[i].end.failed
    ensures states[i].door.allowed
  {
    hide Apply;
    hide Possible;
    hide Sound;
    hide Shape;
    hide Records;
    hide AdmissionOk;
    hide Paced;
    LengthOf(states, actions, config, start);
    StepOf(states, actions, config, start, m);
    RunSound(states, actions, config, start, m);
    SoundParts(states[m]);
    ResumeIsNewest(states[m], p);
    NewestRemembered(states, actions, config, start, m + 1, j, p);
    StepOf(states, actions, config, start, j);
    NewestStays(states[j], actions[j], p);
    NewestRemembered(states, actions, config, start, j + 1, i, p);
    RunSound(states, actions, config, start, i);
    SoundParts(states[i]);
  }

  /**
    Theorem: once the newest command is a resume that has been dealt with, a head that may start and looks at the gate
    at or after its deadline goes on to its acknowledgement.
  */
  lemma HeadGoesOn(states: seq<Service>, actions: seq<Action>, config: Config, start: real, m: nat, j: nat, i: nat,
                   p: nat)
    requires Run(states, actions, config, start) && m < j < i < |actions|
    requires actions[m] == AcceptAdmission(p, true) && actions[j] == FinishResume(p) && actions[i] == Wake(0)
    requires forall n :: m < n < i ==> !actions[n].AcceptAdmission?
    requires i + 1 < |states| && states[i].gate != [] && states[i].gate[0] in states[i].table
    requires Admissible(states[i], states[i].table[states[i].gate[0]]) && states[i].door.next <= states[i].clock.now
    ensures states[i].gate[0] in states[i + 1].table && states[i + 1].table[states[i].gate[0]].phase.Acking? &&
            states[i + 1].table[states[i].gate[0]].started
  {
    hide Apply;
    hide Possible;
    StepOf(states, actions, config, start, i);
    ResumeOpens(states, actions, config, start, m, j, i, p);
    TurnGoesOn(states[i], 0);
  }

  /** Theorem: in a service that was never paused the gate is open, and its head goes on in the same way. */
  lemma UnpausedGoesOn(states: seq<Service>, actions: seq<Action>, config: Config, start: real, i: nat)
    requires Run(states, actions, config, start) && i < |actions| && actions[i] == Wake(0)
    requires forall n :: 0 <= n < i ==> !actions[n].AcceptAdmission? || actions[n].allowed
    requires i + 1 < |states| && states[i].gate != [] && states[i].gate[0] in states[i].table
    requires Admissible(states[i], states[i].table[states[i].gate[0]]) && states[i].door.next <= states[i].clock.now
    ensures states[i].gate[0] in states[i + 1].table && states[i + 1].table[states[i].gate[0]].phase.Acking?
  {
    hide Apply;
    hide Possible;
    hide Sound;
    hide Shape;
    hide Records;
    hide AdmissionOk;
    hide Paced;
    StepOf(states, actions, config, start, i);
    NeverPaused(states, actions, config, start, i);
    RunSound(states, actions, config, start, i);
    SoundParts(states[i]);
    TurnGoesOn(states[i], 0);
  }

  lemma {:induction false} NeverPaused(states: seq<Service>, actions: seq<Action>, config: Config, start: real, i: nat)
    requires Run(states, actions, config, start) && i < |states|
    requires forall n :: 0 <= n < i ==> !actions[n].AcceptAdmission? || actions[n].allowed
    ensures states[i].door.lastPause == 0
  {
    hide Apply;
    hide Possible;
    LengthOf(states, actions, config, start);
    if i > 0 {
      NeverPaused(states, actions, config, start, i - 1);
      StepOf(states, actions, config, start, i - 1);
      PauseOnly(states[i - 1], actions[i - 1]);
    }
  }

  /** Only an accepted pause is remembered as one. */
  lemma PauseOnly(s: Service, a: Action)
    requires Possible(s, a) && (a.AcceptAdmission? ==> a.allowed)
    ensures Apply(s, a).door.lastPause == s.door.lastPause
  {
    hide Apply;
    hide Enabled;
    match a
    case AcceptAdmission(r, allowed) => OnAcceptAdmission(s, r, allowed);
    case WriteAdmission(r, ok) => OnWriteAdmission(s, r, ok);
    case FinishResume(r) => OnFinishResume(s, r);
    case _ => AdmissionStays(s, a);
  }

  // -----------------------------------------------------------------
  // The pace
  // -----------------------------------------------------------------

  /** What a step does to the deadline and the permits. */
  lemma DeadlineStep(s: Service, a: Action)
    requires Possible(s, a) && s.config.rate >= 1
    ensures var t, step := Apply(s, a), 1.0 / s.config.rate as real;
            s.clock.now <= t.clock.now &&
            if t.log.permits != s.log.permits then
              a.GrantOrRefuse? && |t.log.permits| == |s.log.permits| + 1 &&
              s.log.permits == t.log.permits[..|s.log.permits|] &&
              t.log.permits[|s.log.permits|].at == s.clock.now && t.clock == s.clock &&
              t.door.next >= s.door.next + step && t.door.next >= s.clock.now - 1.0 &&
              (s.door.idle ==> t.door.next >= s.clock.now + step) &&
              (!s.door.idle ==> t.door.next <= MaxReal(s.door.next + step, s.clock.now - 1.0)) &&
              t.door.next <= MaxReal(s.door.next, s.clock.now) + step && !t.door.idle
            else
              s.door.next <= t.door.next <= MaxReal(s.door.next, s.clock.now) &&
              (!a.FinishResume? ==> t.door.next == s.door.next) && (s.door.idle ==> t.door.idle)
  {
    hide Apply;
    hide Possible;
    hide Grants;
    ClockOnward(s, a);
    if a.GrantOrRefuse? { GrantDoor(s, a.i); }
    else if a.FinishResume? { ResumeDoor(s, a.revision); IdleStays(s, a); }
    else { DoorStays(s, a); IdleStays(s, a); }
  }

  /** Only a grant ends the idle time. */
  lemma IdleStays(s: Service, a: Action)
    requires Possible(s, a) && !a.GrantOrRefuse?
    ensures s.door.idle ==> Apply(s, a).door.idle
  {
    hide Apply;
    hide Enabled;
    hide BudgetChanged;
    hide Import;
    StaysWithin(s, a);
    match a
    case SubmitAttempt(id, domain, bounty, target, imported, victim, spawn) =>
      OnSubmitAttempt(s, id, domain, bounty, target, imported, victim, spawn);
    case AcceptAdmission(r, allowed) => OnAcceptAdmission(s, r, allowed);
    case WriteAdmission(r, ok) => OnWriteAdmission(s, r, ok);
    case FinishResume(r) => OnFinishResume(s, r);
    case _ =>
  }

  /** Permits are only added, and only to the head that is past the deadline. */
  lemma PermitStep(states: seq<Service>, actions: seq<Action>, config: Config, start: real, k: nat)
    requires Run(states, actions, config, start) && k < |actions|
    ensures |states| == |actions| + 1 && config.rate >= 1 && states[k].config == config
    ensures Possible(states[k], actions[k]) && states[k + 1] == Apply(states[k], actions[k])
    ensures states[k + 1].log.permits != states[k].log.permits ==> states[k].door.next <= states[k].clock.now
  {
    hide Apply;
    hide Possible;
    hide Sound;
    hide AdmissionOk;
    hide Spaced;
    hide Records;
    StepOf(states, actions, config, start, k);
    ConfigOfRun(states, actions, config, start, k);
    RunSound(states, actions, config, start, k);
    SoundParts(states[k]);
    if states[k + 1].log.permits != states[k].log.permits { GrantIsSafe(states[k], actions[k]); }
    hide Shape;
  }

  /**
    Theorem: the deadline is never more than one interval ahead of the present, so a head that may start never waits
    longer than that for its pace.
  */
  lemma {:induction false} DeadlineNear(states: seq<Service>, actions: seq<Action>, config: Config, start: real, k: nat)
    requires Run(states, actions, config, start) && k < |states|
    ensures config.rate >= 1 && states[k].door.next <= MaxReal(0.0, states[k].clock.now + 1.0 / config.rate as real)
  {
    hide Apply;
    hide Possible;
    if k > 0 {
      DeadlineNear(states, actions, config, start, k - 1);
      LengthOf(states, actions, config, start);
      PermitStep(states, actions, config, start, k - 1);
      DeadlineStep(states[k - 1], actions[k - 1]);
    }
  }

  /** The m-th step is no resume, and if it is a start, jobs kept coming and it is at most a second late. */
  predicate SteadyAt(states: seq<Service>, actions: seq<Action>, m: nat)
    requires |states| == |actions| + 1 && m < |actions|
  {
    var s, t := states[m], states[m + 1];
    s.config.rate >= 1 && !actions[m].FinishResume? &&
    (t.log.permits != s.log.permits ==>
       !s.door.idle && s.clock.now <= s.door.next + 1.0 / s.config.rate as real + 1.0)
  }

  lemma SumOfSteps(x: real, n: int, rate: nat)
    requires rate >= 1
    ensures x + n as real / rate as real + 1.0 / rate as real == x + (n + 1) as real / rate as real
  {
    var r := rate as real;
    assert (n as real + 1.0) / r == n as real / r + 1.0 / r;
  }

  /**
    Theorem: the pace does not drift. Over any stretch of a run without a resume in which starts come no later than a
    second after their deadlines, the deadline moves on by exactly one interval for each start.
  */
  lemma {:induction false} NoDrift(states: seq<Service>, actions: seq<Action>, config: Config, start: real, i: nat,
                                   k: nat)
    requires Run(states, actions, config, start) && i <= k < |states| && |states| == |actions| + 1 && config.rate >= 1
    requires forall m :: i <= m < k ==> SteadyAt(states, actions, m)
    ensures states[k].door.next ==
            states[i].door.next + (|states[k].log.permits| - |states[i].log.permits|) as real / config.rate as real
    decreases k
  {
    hide Apply;
    hide Possible;
    LengthOf(states, actions, config, start);
    if i < k {
      NoDrift(states, actions, config, start, i, k - 1);
      PermitStep(states, actions, config, start, k - 1);
      DeadlineStep(states[k - 1], actions[k - 1]);
      assert SteadyAt(states, actions, k - 1);
      SumOfSteps(states[i].door.next, |states[k - 1].log.permits| - |states[i].log.permits|, config.rate);
    }
  }

  /** Every start moves the deadline on by at least one interval. */
  lemma {:induction false} DeadlineGrows(states: seq<Service>, actions: seq<Action>, config: Config, start: real,
                                         i: nat, k: nat)
    requires Run(states, actions, config, start) && i <= k < |states| && config.rate >= 1
    ensures |states[i].log.permits| <= |states[k].log.permits| &&
            states[i].log.permits == states[k].log.permits[..|states[i].log.permits|]
    ensures states[k].door.next >=
            states[i].door.next + (|states[k].log.permits| - |states[i].log.permits|) as real / config.rate as real
    decreases k
  {
    hide Apply;
    hide Possible;
    LengthOf(states, actions, config, start);
    if i < k {
      DeadlineGrows(states, actions, config, start, i, k - 1);
      PermitStep(states, actions, config, start, k - 1);
      DeadlineStep(states[k - 1], actions[k - 1]);
      SumOfSteps(states[i].door.next, |states[k - 1].log.permits| - |states[i].log.permits|, config.rate);
    }
  }

  /** The permits after a point of a run come no earlier than the deadline at that point and its intervals. */
  lemma {:induction false} PermitsAfter(states: seq<Service>, actions: seq<Action>, config: Config, start: real, i: nat,
                                        k: nat, n: nat)
    requires Run(states, actions, config, start) && i <= k < |states| && config.rate >= 1
    requires |states[i].log.permits| + n < |states[k].log.permits|
    ensures states[k].log.permits[|states[i].log.permits| + n].at >=
            states[i].door.next + n as real / config.rate as real
    decreases k
  {
    hide Apply;
    hide Possible;
    LengthOf(states, actions, config, start);
    if i < k {
      DeadlineGrows(states, actions, config, start, i, k - 1);
      DeadlineGrows(states, actions, config, start, k - 1, k);
      PermitStep(states, actions, config, start, k - 1);
      DeadlineStep(states[k - 1], actions[k - 1]);
      if |states[i].log.permits| + n < |states[k - 1].log.permits| {
        PermitsAfter(states, actions, config, start, i, k - 1, n);
      }
    }
  }

  /**
    Theorem: a pause banks no starts. After a resume has opened a closed gate, the n-th start comes at least n intervals
    after the resume.
  */
  lemma PauseBanksNothing(states: seq<Service>, actions: seq<Action>, config: Config, start: real, i: nat, k: nat,
                          n: nat)
    requires Run(states, actions, config, start) && i < k < |states| && i < |actions| && actions[i].FinishResume?
    requires !states[i].door.allowed && states[i + 1].door.allowed && config.rate >= 1
    requires |states[i].log.permits| + n < |states[k].log.permits|
    ensures states[k].log.permits[|states[i].log.permits| + n].at >=
            states[i].clock.now + n as real / config.rate as real
  {
    hide Apply;
    hide Possible;
    LengthOf(states, actions, config, start);
    StepOf(states, actions, config, start, i);
    ReopeningDoor(states[i], actions[i].revision);
    PermitsAfter(states, actions, config, start, i + 1, k, n);
  }

  lemma ReopeningDoor(s: Service, revision: nat)
    requires Possible(s, FinishResume(revision)) && !s.door.allowed && Apply(s, FinishResume(revision)).door.allowed
    ensures Apply(s, FinishResume(revision)).door.next >= s.clock.now
    ensures Apply(s, FinishResume(revision)).log == s.log
  {
    hide Apply;
    hide Enabled;
    OnFinishResume(s, revision);
  }

  /**
    Theorem: idle time banks no starts. If an attempt is submitted while none is live, the n-th start after the next
    one comes at least n intervals after that one.
  */
  lemma IdleBanksNothing(states: seq<Service>, actions: seq<Action>, config: Config, start: real, i: nat, k: nat,
                         n: nat)
    requires Run(states, actions, config, start) && i < k < |states| && i < |actions| && actions[i].SubmitAttempt?
    requires NobodyWants(states[i])
    requires |states[i].log.permits| + n < |states[k].log.permits| && config.rate >= 1
    ensures var ps, first := states[k].log.permits, |states[i].log.permits|;
            ps[first + n].at >= ps[first].at + n as real / config.rate as real
  {
    hide Apply;
    hide Possible;
    LengthOf(states, actions, config, start);
    StepOf(states, actions, config, start, i);
    IdleSubmitted(states[i], actions[i]);
    var m := FirstPermit(states, actions, config, start, i + 1, k);
    PermitStep(states, actions, config, start, m);
    DeadlineStep(states[m], actions[m]);
    DeadlineGrows(states, actions, config, start, m + 1, k);
    if n > 0 {
      PermitsAfter(states, actions, config, start, m + 1, k, n - 1);
      SumOfSteps(states[m].clock.now, n - 1, config.rate);
    }
  }

  /** No attempt is registered that nobody has cancelled. */
  predicate NobodyWants(s: Service) {
    forall id :: id in s.live && id in s.table && s.table[id].attempt ==>
      s.table[id].cancelRequested || s.table[id].controlCancelled
  }

  /** An attempt makes the gate idle exactly if it comes alone. */
  lemma IdleSubmitted(s: Service, a: Action)
    requires Possible(s, a) && a.SubmitAttempt?
    ensures Apply(s, a).door.idle == (s.door.idle || NobodyWants(s)) && Apply(s, a).log == s.log
  {
    hide Apply;
    hide Enabled;
    hide BudgetChanged;
    hide Import;
    OnSubmitAttempt(s, a.id, a.domain, a.bounty, a.target, a.imported, a.victim, a.spawn);
  }

  /** Theorem: after a start the gate is not idle, as long as every new attempt finds another one that is wanted. */
  lemma {:induction false} BusySince(states: seq<Service>, actions: seq<Action>, config: Config, start: real, i: nat,
                                     k: nat)
    requires Run(states, actions, config, start) && i < k < |states| && |states| == |actions| + 1
    requires states[i + 1].log.permits != states[i].log.permits
    requires forall m :: i < m < k && actions[m].SubmitAttempt? ==> !NobodyWants(states[m])
    ensures !states[k].door.idle
    decreases k
  {
    hide Apply;
    hide Possible;
    hide NobodyWants;
    hide Run;
    PermitStep(states, actions, config, start, k - 1);
    DeadlineStep(states[k - 1], actions[k - 1]);
    if i < k - 1 {
      BusySince(states, actions, config, start, i, k - 1);
      IdleOnly(states[k - 1], actions[k - 1]);
    }
  }

  lemma IdleOnly(s: Service, a: Action)
    requires Possible(s, a) && !s.door.idle && (a.SubmitAttempt? ==> !NobodyWants(s))
    ensures !Apply(s, a).door.idle
  {
    hide Apply;
    hide Possible;
    hide NobodyWants;
    hide Grants;
    if a.SubmitAttempt? { IdleSubmitted(s, a); }
    else if a.AcceptAdmission? || a.WriteAdmission? || a.FinishResume? { IdleCommand(s, a); }
    else if a.GrantOrRefuse? { GrantDoor(s, a.i); }
    else { StaysWithin(s, a); }
  }

  lemma IdleCommand(s: Service, a: Action)
    requires Possible(s, a) && (a.AcceptAdmission? || a.WriteAdmission? || a.FinishResume?)
    ensures Apply(s, a).door.idle == s.door.idle
  {
    hide Apply;
    hide Enabled;
    if a.AcceptAdmission? { OnAcceptAdmission(s, a.revision, a.allowed); }
    else if a.WriteAdmission? { OnWriteAdmission(s, a.revision, a.ok); }
    else { OnFinishResume(s, a.revision); }
  }

  /** The first start of an idle gate. */
  lemma {:induction false} FirstPermit(states: seq<Service>, actions: seq<Action>, config: Config, start: real, i: nat,
                                       k: nat) returns (m: nat)
    requires Run(states, actions, config, start) && i <= k < |states| && states[i].door.idle
    requires states[k].log.permits != states[i].log.permits
    ensures i <= m < k && states[m].log.permits == states[i].log.permits && states[m].door.idle
    ensures states[m + 1].log.permits != states[m].log.permits
    decreases k - i
  {
    hide Apply;
    hide Possible;
    LengthOf(states, actions, config, start);
    PermitStep(states, actions, config, start, i);
    DeadlineStep(states[i], actions[i]);
    if states[i + 1].log.permits != states[i].log.permits {
      m := i;
    } else {
      m := FirstPermit(states, actions, config, start, i + 1, k);
    }
  }
}
