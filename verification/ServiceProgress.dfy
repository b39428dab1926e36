/**
  Nobody is kept out without a reason: an unpaused gate is open, a resume that has finished opens it, and a job that
  may start goes on when its turn comes.
*/
module ServiceProgress {
  import opened ServiceState
  import opened ServiceSteps
  import opened ServiceActions
  import opened ServiceFrames
  import opened ServiceAdmission

  // -----------------------------------------------------------------
  // The gate opens
  // -----------------------------------------------------------------

  /**
    While the service works, the gate is open if it was never paused, or if the newest command is a resume that has
    been dealt with.
  */
  ghost predicate Reopened(s: Service) {
    (!s.end.closed && !s.end.failed ==>
       (s.door.lastPause == 0 ==> s.door.allowed) &&
       (s.door.lastPause < s.door.revision && s.door.revision !in s.door.admissions ==> s.door.allowed)) &&
    forall r :: r in s.door.admissions && s.door.admissions[r] == Unacknowledged(false) ==> r <= s.door.lastPause
  }

  lemma ReopenedQuiet(s: Service, a: Action)
    requires Reopened(s) && Possible(s, a) && !AdmissionAction(a)
    ensures Reopened(Apply(s, a))
  {
    hide Apply;
    hide Possible;
    AdmissionStays(s, a);
    EndKept(s, a);
  }

  lemma ReopenedWritten(s: Service, revision: nat, ok: bool)
    requires AdmissionOk(s) && Reopened(s) && Possible(s, WriteAdmission(revision, ok))
    ensures Reopened(Apply(s, WriteAdmission(revision, ok)))
  {
    hide Apply;
    hide Enabled;
    OnWriteAdmission(s, revision, ok);
  }

  lemma ReopenedKept(s: Service, a: Action)
    requires AdmissionOk(s) && Reopened(s) && Possible(s, a)
    ensures Reopened(Apply(s, a))
  {
    hide Apply;
    hide Enabled;
    match a
    case AcceptAdmission(revision, allowed) => OnAcceptAdmission(s, revision, allowed);
    case WriteAdmission(revision, ok) => ReopenedWritten(s, revision, ok);
    case FinishResume(revision) => OnFinishResume(s, revision);
    case _ => ReopenedQuiet(s, a);
  }

  /** The newest command is this one, and no pause came after it. */
  predicate Newest(s: Service, revision: nat) {
    s.door.revision == revision && s.door.lastPause < revision
  }

  lemma NewestStays(s: Service, a: Action, revision: nat)
    requires Newest(s, revision) && Possible(s, a) && !a.AcceptAdmission?
    ensures Newest(Apply(s, a), revision)
    ensures revision !in s.door.admissions ==> revision !in Apply(s, a).door.admissions
    ensures a == FinishResume(revision) ==> revision !in Apply(s, a).door.admissions
  {
    hide Apply;
    hide Enabled;
    match a
    case WriteAdmission(r, ok) => OnWriteAdmission(s, r, ok);
    case FinishResume(r) => OnFinishResume(s, r);
    case _ => AdmissionStays(s, a);
  }

  lemma ResumeIsNewest(s: Service, revision: nat)
    requires AdmissionOk(s) && Possible(s, AcceptAdmission(revision, true))
    ensures Newest(Apply(s, AcceptAdmission(revision, true)), revision)
  {
    hide Apply;
    hide Enabled;
    OnAcceptAdmission(s, revision, true);
  }

  // -----------------------------------------------------------------
  // A job goes on
  // -----------------------------------------------------------------

  /** An address is barred until its time has come; so is a whole family. */
  predicate Reachable(s: Service, e: Endpoint) {
    (e in s.net.routes ==> s.net.routes[e] <= s.clock.reach) &&
    (e.family in s.net.families ==> s.net.families[e.family] <= s.clock.reach)
  }

  /** Nothing stands against the start of a job but the gate. */
  predicate Admissible(s: Service, j: Job) {
    !s.end.closed && !s.end.failed && !j.cancelRequested && !j.controlCancelled &&
    (j.endpoint.Some? ==> Reachable(s, j.endpoint.value)) &&
    j.bounty in s.budgets && s.budgets[j.bounty].successes < s.budgets[j.bounty].stop
  }

  /**
    Theorem: a job that looks at the gate leaves exactly if it may not start, and goes on to its acknowledgement exactly
    if it may, is the head, and the gate is open and its deadline past; otherwise it sleeps.
  */
  lemma TurnGoesOn(s: Service, i: nat)
    requires Possible(s, Wake(i))
    ensures i < |s.gate| && s.gate[i] in s.table && s.gate[i] in Apply(s, Wake(i)).table
    ensures var j, k := s.table[s.gate[i]], Apply(s, Wake(i)).table[s.gate[i]];
            (k.phase.Ended? <==> !Admissible(s, j)) &&
            (k.phase.Acking? <==> Admissible(s, j) && i == 0 && s.door.allowed && s.door.next <= s.clock.now) &&
            (k.phase.Acking? ==> k.started) && (k.phase.Ended? || k.phase.Acking? || k.SleepsUnnotified())
  {
    hide Apply;
    hide Enabled;
    hide Release;
    OnWake(s, i);
  }

  /** Handing the gate on cancels nobody and forgets no cancellation. */
  lemma ReleaseKeeps(s: Service, i: nat)
    requires i < |s.gate|
    ensures forall id :: id in s.table ==>
              id in Release(s, i).table && Release(s, i).table[id].cancelRequested == s.table[id].cancelRequested
  {
  }

  /**
    Theorem: an acknowledged job gets its permit exactly if it may start and the gate is still open; otherwise it leaves
    without one, and is cancelled if it was only the gate.
  */
  lemma AckedGoesOn(s: Service, i: nat)
    requires Possible(s, GrantOrRefuse(i))
    ensures i < |s.gate| && s.gate[i] in s.table && s.gate[i] in Apply(s, GrantOrRefuse(i)).table
    ensures var t, id := Apply(s, GrantOrRefuse(i)), s.gate[i];
            if Admissible(s, s.table[id]) && s.door.allowed then
              t.table[id].phase.Connected? &&
              t.log.permits == s.log.permits + [Permit(id, s.table[id].ticket, s.clock.now)]
            else
              t.table[id].phase.Ended? && !t.table[id].phase.permit && t.log.permits == s.log.permits &&
              (Admissible(s, s.table[id]) ==> t.table[id].cancelRequested)
  {
    hide Apply;
    hide Enabled;
    hide Advance;
    OnGrantOrRefuse(s, i);
    ReleaseKeeps(s, i);
    if s.gate[i] in s.table { ReleaseKeeps(Put(s, s.gate[i], s.table[s.gate[i]].(cancelRequested := true)), i); }
    hide Release;
  }

  /** Theorem: a job whose address is chosen goes on to its capture exactly if it may start. */
  lemma SelectedGoesOn(s: Service, id: JobId)
    requires Possible(s, CheckStart(id))
    ensures id in s.table && id in Apply(s, CheckStart(id)).table
    ensures Apply(s, CheckStart(id)).table[id].phase.Capturing? <==> Admissible(s, s.table[id])
  {
    hide Apply;
    hide Enabled;
    OnCheckStart(s, id);
  }
}
