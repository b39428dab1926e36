/**
  Pause and resume. After an accepted pause no permit is granted until a resume
  that is newer than the pause has been acknowledged to the controller.
*/
module ServiceAdmission {
  import opened ServiceState
  import opened ServiceSteps
  import opened ServiceActions
  import opened ServiceFrames

  /** The gate is open only by the word of an acknowledged resume that is newer than the newest pause. */
  ghost predicate AdmissionOk(s: Service) {
    s.door.lastPause <= s.door.revision <= s.lastId &&
    (s.door.allowed && s.door.lastPause > 0 ==>
       s.door.lastPause < s.door.openedBy && Admission(s.door.openedBy, true) in s.log.frames) &&
    (forall r :: r in s.door.admissions ==> r <= s.door.revision) &&
    (forall r: nat, ok: bool :: Admission(r, ok) in s.log.frames ==> r <= s.door.revision) &&
    (forall r :: r in s.door.admissions && s.door.admissions[r].Acknowledged? ==>
       Admission(r, true) in s.log.frames && r != s.door.lastPause) &&
    (forall r :: r in s.door.admissions && s.door.admissions[r].Unacknowledged? && s.door.admissions[r].allowed ==>
       r != s.door.lastPause)
  }

  predicate AdmissionAction(a: Action) {
    a.AcceptAdmission? || a.WriteAdmission? || a.FinishResume?
  }

  /** Everything else leaves admission alone; request ids only grow. */
  predicate SameAdmission(s: Service, t: Service) {
    t.door.allowed == s.door.allowed && t.door.revision == s.door.revision && t.door.lastPause == s.door.lastPause &&
    t.door.openedBy == s.door.openedBy && t.door.admissions == s.door.admissions && s.lastId <= t.lastId
  }

  lemma AdmissionStays(s: Service, a: Action)
    requires Possible(s, a) && !AdmissionAction(a)
    ensures SameAdmission(s, Apply(s, a))
  {
    hide Apply;
    hide Enabled;
    hide Refused;
    hide Release;
    StaysWithin(s, a);
    match a
    case SubmitAttempt(id, domain, bounty, target, imported, victim, spawn) =>
      OnSubmitAttempt(s, id, domain, bounty, target, imported, victim, spawn);
    case SubmitResolve(id, domain, spawn) => OnSubmitResolve(s, id, domain, spawn);
    case GrantOrRefuse(i) => OnGrantOrRefuse(s, i);
    case _ =>
  }

  /** Only an admission acknowledgement is an admission frame. */
  lemma NoAdmissionWritten(s: Service, a: Action)
    requires Possible(s, a) && !a.WriteAdmission?
    ensures forall r: nat, ok: bool :: Admission(r, ok) in s.log.frames + Written(s, a) ==>
      Admission(r, ok) in s.log.frames
  {
  }

  lemma FramesStay(frames: seq<Frame>, more: seq<Frame>)
    ensures forall f :: f in frames ==> f in frames + more
  {
  }

  lemma QuietAdmission(s: Service, a: Action)
    requires AdmissionOk(s) && Possible(s, a) && !AdmissionAction(a)
    ensures AdmissionOk(Apply(s, a)) && SameAdmission(s, Apply(s, a))
  {
    Writes(s, a);
    AdmissionStays(s, a);
    FramesStay(s.log.frames, Written(s, a));
    NoAdmissionWritten(s, a);
    hide Apply;
    hide Enabled;
    hide Written;
  }

  lemma AcceptKeeps(s: Service, revision: nat, allowed: bool)
    requires AdmissionOk(s) && Possible(s, AcceptAdmission(revision, allowed))
    ensures AdmissionOk(Apply(s, AcceptAdmission(revision, allowed)))
  {
    hide Apply;
    hide Enabled;
    OnAcceptAdmission(s, revision, allowed);
  }

  lemma WriteKeeps(s: Service, revision: nat, ok: bool)
    requires AdmissionOk(s) && Possible(s, WriteAdmission(revision, ok))
    ensures AdmissionOk(Apply(s, WriteAdmission(revision, ok)))
  {
    hide Apply;
    hide Enabled;
    OnWriteAdmission(s, revision, ok);
    FramesStay(s.log.frames, [Admission(revision, s.door.admissions[revision].allowed)]);
  }

  lemma ResumeKeeps(s: Service, revision: nat)
    requires AdmissionOk(s) && Possible(s, FinishResume(revision))
    ensures AdmissionOk(Apply(s, FinishResume(revision)))
  {
    hide Apply;
    hide Enabled;
    OnFinishResume(s, revision);
  }

  lemma AdmissionKept(s: Service, a: Action)
    requires AdmissionOk(s) && Possible(s, a)
    ensures AdmissionOk(Apply(s, a))
  {
    hide AdmissionOk;
    hide Apply;
    hide Enabled;
    match a
    case AcceptAdmission(revision, allowed) => AcceptKeeps(s, revision, allowed);
    case WriteAdmission(revision, ok) => WriteKeeps(s, revision, ok);
    case FinishResume(revision) => ResumeKeeps(s, revision);
    case _ => QuietAdmission(s, a);
  }

  /** An accepted pause closes the gate and is the newest; no admission frame names anything newer yet. */
  lemma PauseCloses(s: Service, revision: nat)
    requires AdmissionOk(s) && Possible(s, AcceptAdmission(revision, false))
    ensures var t := Apply(s, AcceptAdmission(revision, false));
      !t.door.allowed && t.door.lastPause == revision && revision > s.door.lastPause &&
      forall r: nat, ok: bool :: Admission(r, ok) in t.log.frames ==>
        Admission(r, ok) in s.log.frames && r <= revision
  {
    hide Apply;
    hide Enabled;
    OnAcceptAdmission(s, revision, false);
  }

  lemma PausesGrow(s: Service, a: Action)
    requires AdmissionOk(s) && Possible(s, a)
    ensures s.door.lastPause <= Apply(s, a).door.lastPause
  {
    hide Apply;
    hide Enabled;
    match a
    case AcceptAdmission(revision, allowed) => OnAcceptAdmission(s, revision, allowed);
    case WriteAdmission(revision, ok) => OnWriteAdmission(s, revision, ok);
    case FinishResume(revision) => OnFinishResume(s, revision);
    case _ => QuietAdmission(s, a);
  }
}
