/**
  The order and the pace of permits: they leave in arrival order, only the head
  of the gate is past the wait, every permit is granted under every admission
  condition, and over any stretch of a run permits keep their distance up to one
  second of debt.
*/
module ServicePermits {
  import opened ServiceState
  import opened ServiceSteps
  import opened ServiceActions
  import opened ServiceShape
  import opened ServiceGraph
  import opened ServiceRecords
  import opened ServiceFrames

  // -----------------------------------------------------------------
  // What one step does to the door and the permits
  // -----------------------------------------------------------------

  /** The permit that an action grants, if it grants one. */
  ghost predicate Grants(s: Service, a: Action)
    requires Possible(s, a)
  {
    a.GrantOrRefuse? && Refused(s, s.table[s.gate[a.i]]).None? && s.door.allowed
  }

  /** Commands that touch the door leave its deadline alone. */
  lemma CommandDoor(s: Service, a: Action)
    requires Possible(s, a) && (a.SubmitAttempt? || a.AcceptAdmission?)
    ensures Apply(s, a).door.next == s.door.next
  {
    hide Apply;
    hide Enabled;
    hide BudgetChanged;
    hide Import;
    match a
    case SubmitAttempt(id, domain, bounty, target, imported, victim, spawn) =>
      OnSubmitAttempt(s, id, domain, bounty, target, imported, victim, spawn);
    case AcceptAdmission(revision, allowed) => OnAcceptAdmission(s, revision, allowed);
  }

  lemma ClockOnward(s: Service, a: Action)
    requires Possible(s, a)
    ensures s.clock.now <= Apply(s, a).clock.now
  {
    hide Apply;
    hide Enabled;
    StaysWithin(s, a);
    if a.Tick? { OnTick(s, a.now, a.reach); }
  }

  /** Only a grant and a resume move the next deadline, and only a grant adds a permit. */
  lemma DoorStays(s: Service, a: Action)
    requires Possible(s, a) && !a.GrantOrRefuse? && !a.FinishResume?
    ensures Apply(s, a).door.next == s.door.next && Apply(s, a).log.permits == s.log.permits &&
            s.clock.now <= Apply(s, a).clock.now
  {
    hide Apply;
    hide Possible;
    hide Written;
    StaysWithin(s, a);
    ClockOnward(s, a);
    if a.SubmitAttempt? || a.AcceptAdmission? { CommandDoor(s, a); }
    if WriteAction(a) { FrameWritten(s, a); }
    if a.EnterGate? { GateLogged(s, a); }
  }

  /** A resume moves the deadline to the present at the earliest. */
  lemma ResumeDoor(s: Service, revision: nat)
    requires Possible(s, FinishResume(revision))
    ensures var t := Apply(s, FinishResume(revision));
      t.log == s.log && t.clock == s.clock && t.config == s.config && t.gate == s.gate &&
      (t.door.next == s.door.next || t.door.next == MaxReal(s.door.next, s.clock.now))
  {
    hide Apply;
    hide Enabled;
    OnFinishResume(s, revision);
  }

  /** The effect of a turn after the acknowledgement. */
  lemma GrantDoor(s: Service, i: nat)
    requires Possible(s, GrantOrRefuse(i))
    ensures i < |s.gate| && s.gate[i] in s.table && s.table[s.gate[i]].phase.Acked?
    ensures var t := Apply(s, GrantOrRefuse(i)); var id := s.gate[i];
      t.clock == s.clock && t.config == s.config &&
      if Grants(s, GrantOrRefuse(i)) then
        t.door.next == Advance(s.door.next, s.clock.now, s.config.rate, s.door.idle) && !t.door.idle &&
        t.log.permits == s.log.permits + [Permit(id, s.table[id].ticket, s.clock.now)]
      else t.door == s.door && t.log.permits == s.log.permits
  {
    hide Apply;
    hide Enabled;
    OnGrantOrRefuse(s, i);
  }

  // -----------------------------------------------------------------
  // Safety of a grant
  // -----------------------------------------------------------------

  /** At most one job is between the decision to send its started frame and its permit: the head of the gate. */
  lemma OnlyHeadPastWait(s: Service, id: JobId)
    requires Shape(s) && id in s.table && PastTheWait(s.table[id])
    ensures s.gate != [] && s.gate[0] == id
    ensures forall other :: other in s.table && PastTheWait(s.table[other]) ==> other == id
  {
    forall other | other in s.table && PastTheWait(s.table[other]) ensures s.gate != [] && s.gate[0] == other {
      Places(s, other);
      var k :| 0 <= k < |s.gate| && s.gate[k] == other;
      assert k == 0;
    }
  }

  /** A permit is granted exactly when every admission condition holds at that moment, and only to the head. */
  lemma GrantIsSafe(s: Service, a: Action)
    requires Shape(s) && Possible(s, a) && Apply(s, a).log.permits != s.log.permits
    ensures a.GrantOrRefuse? && a.i == 0 && s.gate != [] && s.gate[0] in s.table
    ensures s.door.allowed && !s.end.closed && !s.end.failed
    ensures var j := s.table[s.gate[0]];
      j.phase.Acked? && !j.Cancelled() && BudgetBelowStop(s, j.bounty) &&
      (j.endpoint.Some? ==> EndpointAvailable(s, j.endpoint.value)) &&
      Apply(s, a).log.permits == s.log.permits + [Permit(s.gate[0], j.ticket, s.clock.now)]
  {
    hide Apply;
    hide Enabled;
    match a
    case GrantOrRefuse(i) => GrantDoor(s, i);
    case FinishResume(revision) => ResumeDoor(s, revision);
    case _ => DoorStays(s, a);
  }

  // -----------------------------------------------------------------
  // Arrival order
  // -----------------------------------------------------------------

  /** Permits left in the order of arrival, before everyone who still waits. */
  ghost predicate ArrivalOrder(s: Service) {
    (forall i, k :: 0 <= i < k < |s.log.permits| ==> s.log.permits[i].ticket < s.log.permits[k].ticket) &&
    (forall i :: 0 <= i < |s.log.permits| ==> s.log.permits[i].ticket < s.log.arrivals) &&
    (forall i, k :: 0 <= i < |s.log.permits| && 0 <= k < |s.gate| && s.gate[k] in s.table ==>
       s.log.permits[i].ticket < s.table[s.gate[k]].ticket)
  }

  lemma StillTicket(j: Job, k: Job)
    requires Still(j, k)
    ensures k.InGate() == j.InGate() && k.ticket == j.ticket
  {
  }

  lemma EnterTicket(s: Service, id: JobId)
    requires Possible(s, EnterGate(id))
    ensures var t := Apply(s, EnterGate(id)); id in t.table && t.table[id].ticket == s.log.arrivals
  {
    hide Apply;
    hide Enabled;
    OnEnterGate(s, id);
    hide Refused;
  }

  /** The arrival counter only grows. */
  lemma ArrivalsGrow(s: Service, a: Action)
    requires Possible(s, a)
    ensures s.log.arrivals <= Apply(s, a).log.arrivals
  {
    hide Apply;
    hide Possible;
    hide Written;
    StaysWithin(s, a);
    if WriteAction(a) { FrameWritten(s, a); }
    if a.EnterGate? || a.GrantOrRefuse? { GateLogged(s, a); }
  }

  lemma GateRecord(s: Service, id: JobId)
    requires Shape(s) && id in s.gate
    ensures id in s.table && s.table[id].InGate() && s.table[id].ticket < s.log.arrivals
  {
    assert GateShape(s);
    var i :| 0 <= i < |s.gate| && s.gate[i] == id;
    assert s.gate[i] in s.table;
    Places(s, id);
  }

  /** Who stands in the gate after a step, and with which ticket. */
  lemma GateTicket(s: Service, a: Action, id: JobId)
    requires Shape(s) && Records(s) && Possible(s, a) && Shape(Apply(s, a)) && id in Apply(s, a).gate
    ensures id in Apply(s, a).table
    ensures (id in s.gate && id in s.table && Apply(s, a).table[id].ticket == s.table[id].ticket) ||
            Apply(s, a).table[id].ticket == s.log.arrivals
  {
    hide Shape;
    hide Apply;
    hide Possible;
    hide Edge;
    hide Still;
    hide Rank;
    hide Coherent;
    var t := Apply(s, a);
    GateRecord(t, id);
    FollowsGraph(s, a, id);
    if a.EnterGate? { EnterTicket(s, a.id); }
    if id in s.table {
      Places(s, id);
      if Still(s.table[id], t.table[id]) {
        StillTicket(s.table[id], t.table[id]);
      } else {
        EdgeMoves(a, s.table[id], t.table[id]);
      }
    }
  }

  /** The graph, for one job. */
  lemma FollowsGraph(s: Service, a: Action, id: JobId)
    requires Shape(s) && Possible(s, a)
    ensures id in s.table ==> Follows(s, Apply(s, a), a, id)
    ensures id !in s.table && id in Apply(s, a).table ==> Apply(s, a).table[id].phase.Queued?
  {
    hide Apply;
    hide Follows;
    hide Shape;
    JobsFollowGraph(s, a);
  }

  lemma GrantedLeaves(s: Service, i: nat)
    requires Possible(s, GrantOrRefuse(i)) && Grants(s, GrantOrRefuse(i))
    ensures var t := Apply(s, GrantOrRefuse(i));
            i < |s.gate| && s.gate[i] in t.table && t.table[s.gate[i]].phase.Connected?
  {
    hide Apply;
    hide Enabled;
    hide Release;
    OnGrantOrRefuse(s, i);
  }

  /** A granted head had the smallest ticket, and it has left. */
  lemma HeadWasFirst(s: Service, i: nat, id: JobId)
    requires Shape(s) && Records(s) && Possible(s, GrantOrRefuse(i)) && Shape(Apply(s, GrantOrRefuse(i))) &&
             id in Apply(s, GrantOrRefuse(i)).gate
    requires Grants(s, GrantOrRefuse(i)) && i == 0 && s.gate != [] && s.gate[0] in s.table
    ensures id in Apply(s, GrantOrRefuse(i)).table &&
            s.table[s.gate[0]].ticket < Apply(s, GrantOrRefuse(i)).table[id].ticket
  {
    hide Apply;
    hide Possible;
    var a, t := GrantOrRefuse(i), Apply(s, GrantOrRefuse(i));
    assert GateShape(s);
    hide Shape;
    GrantedLeaves(s, i);
    GateRecord(s, s.gate[0]);
    GateRecord(t, id);
    GateTicket(s, a, id);
    if id in s.gate && t.table[id].ticket == s.table[id].ticket {
      var m :| 0 <= m < |s.gate| && s.gate[m] == id;
      assert m != 0;
    }
  }

  /** A state whose waiters are behind all permits, and whose newest permit is behind the others, is in order. */
  lemma OrderFrom(s: Service, t: Service)
    requires ArrivalOrder(s) && s.log.arrivals <= t.log.arrivals
    requires t.log.permits == s.log.permits ||
      (exists p: Permit :: t.log.permits == s.log.permits + [p] && p.ticket < t.log.arrivals &&
        (forall i :: 0 <= i < |s.log.permits| ==> s.log.permits[i].ticket < p.ticket) &&
        (forall k :: 0 <= k < |t.gate| && t.gate[k] in t.table ==> p.ticket < t.table[t.gate[k]].ticket))
    requires forall i, k :: 0 <= i < |s.log.permits| && 0 <= k < |t.gate| && t.gate[k] in t.table ==>
      s.log.permits[i].ticket < t.table[t.gate[k]].ticket
    ensures ArrivalOrder(t)
  {
  }

  lemma ArrivalOrderKept(s: Service, a: Action)
    requires Shape(s) && Records(s) && ArrivalOrder(s) && Possible(s, a) && Shape(Apply(s, a))
    ensures ArrivalOrder(Apply(s, a))
  {
    hide Apply;
    hide Possible;
    hide Shape;
    hide Records;
    var t := Apply(s, a);
    ArrivalsGrow(s, a);
    forall i, k | 0 <= i < |s.log.permits| && 0 <= k < |t.gate| && t.gate[k] in t.table
      ensures s.log.permits[i].ticket < t.table[t.gate[k]].ticket
    {
      GateTicket(s, a, t.gate[k]);
      if t.gate[k] in s.gate { var m :| 0 <= m < |s.gate| && s.gate[m] == t.gate[k]; }
    }
    if t.log.permits != s.log.permits {
      GrantIsSafe(s, a);
      GrantDoor(s, a.i);
      GateRecord(s, s.gate[0]);
      forall k | 0 <= k < |t.gate| && t.gate[k] in t.table
        ensures s.table[s.gate[0]].ticket < t.table[t.gate[k]].ticket
      {
        HeadWasFirst(s, a.i, t.gate[k]);
      }
    }
    hide ArrivalOrder;
    OrderFrom(s, t);
  }

  // -----------------------------------------------------------------
  // Pace
  // -----------------------------------------------------------------

  /** A number of whole intervals. */
  function Steps(k: int, rate: nat): real
    requires rate >= 1
  {
    k as real / rate as real
  }

  lemma StepsNext(k: int, rate: nat)
    requires rate >= 1
    ensures Steps(k + 1, rate) == Steps(k, rate) + Interval(rate)
  {
    var r := rate as real;
    assert (k + 1) as real == k as real + 1.0;
    assert (k as real + 1.0) / r == k as real / r + 1.0 / r;
  }

  /** The deadline remembers every permit, one second of debt aside, and the permits keep their distance. */
  ghost predicate Spaced(ps: seq<Permit>, next: real, now: real, rate: nat)
    requires rate >= 1
  {
    (forall i :: 0 <= i < |ps| ==> ps[i].at <= now && next >= ps[i].at - 1.0 + Steps(|ps| - 1 - i, rate)) &&
    (forall i, k :: 0 <= i < k < |ps| ==> ps[i].at <= ps[k].at && ps[k].at - ps[i].at >= Steps(k - i - 1, rate) - 1.0)
  }

  /** Pacing: permits keep their distance, and the deadline has come for everyone past the wait. */
  ghost predicate Paced(s: Service)
    requires s.config.rate >= 1
  {
    Spaced(s.log.permits, s.door.next, s.clock.now, s.config.rate) &&
    (forall id :: id in s.table && PastTheWait(s.table[id]) ==> s.door.next <= s.clock.now)
  }

  lemma SpacedLater(ps: seq<Permit>, next: real, now: real, next': real, now': real, rate: nat)
    requires rate >= 1 && Spaced(ps, next, now, rate) && next <= next' && now <= now'
    ensures Spaced(ps, next', now', rate)
  {
    hide Steps;
  }

  lemma StillPast(j: Job, k: Job)
    requires Still(j, k)
    ensures PastTheWait(k) == PastTheWait(j)
  {
  }

  lemma TurnPast(s: Service, i: nat)
    requires i < |s.gate| && s.gate[i] in s.table && s.table[s.gate[i]].phase.Waiting?
    ensures s.gate[i] in Turn(s, i).table
    ensures Turn(s, i).table[s.gate[i]].phase.Acking? ==> s.door.next <= s.clock.now
  {
    hide Refused;
    hide Release;
  }

  lemma EntersPast(s: Service, a: Action, id: JobId)
    requires Possible(s, a) && (a.EnterGate? || a.Wake?) && Serves(s, a, id)
    ensures id in Apply(s, a).table && (Apply(s, a).table[id].phase.Acking? ==> s.door.next <= s.clock.now)
    ensures Apply(s, a).door == s.door && Apply(s, a).clock == s.clock
  {
    hide Apply;
    hide Enabled;
    hide Turn;
    StaysWithin(s, a);
    match a
    case EnterGate(k) => OnEnterGate(s, k); TurnPast(Arrived(s, k), |s.gate|);
    case Wake(i) => OnWake(s, i); TurnPast(s, i);
    case _ =>
  }

  /** The deadline still stands, unless the head was granted or an idle gate resumed. */
  lemma DueStays(s: Service, a: Action)
    requires Possible(s, a) && s.door.next <= s.clock.now
    ensures Apply(s, a).door.next <= Apply(s, a).clock.now || (a.GrantOrRefuse? && Grants(s, a))
  {
    hide Apply;
    hide Possible;
    hide Grants;
    if a.FinishResume? { ResumeDoor(s, a.revision); }
    else if a.GrantOrRefuse? { GrantDoor(s, a.i); }
    else { DoorStays(s, a); }
  }

  /** After a grant nobody is past the wait. */
  lemma GrantedNobodyPast(s: Service, a: Action, id: JobId)
    requires Shape(s) && Records(s) && Possible(s, a) && a.GrantOrRefuse? && Grants(s, a) && id in Apply(s, a).table
    ensures !PastTheWait(Apply(s, a).table[id])
  {
    hide Apply;
    hide Possible;
    hide Shape;
    hide Edge;
    hide Still;
    hide Rank;
    hide Coherent;
    FollowsGraph(s, a, id);
    GrantDoor(s, a.i);
    GrantedLeaves(s, a.i);
    OnlyHeadPastWait(s, s.gate[a.i]);
    if id in s.table {
      if Still(s.table[id], Apply(s, a).table[id]) { StillPast(s.table[id], Apply(s, a).table[id]); }
      else { EdgeMoves(a, s.table[id], Apply(s, a).table[id]); }
    }
  }

  /** After any step, the deadline has come for everyone past the wait. */
  lemma PastKept(s: Service, a: Action, id: JobId)
    requires Shape(s) && Records(s) && Possible(s, a) && s.config.rate >= 1 && Paced(s)
    requires id in Apply(s, a).table && PastTheWait(Apply(s, a).table[id])
    ensures Apply(s, a).door.next <= Apply(s, a).clock.now
  {
    hide Apply;
    hide Possible;
    hide Shape;
    hide Edge;
    hide Still;
    hide Rank;
    hide Coherent;
    hide Spaced;
    hide Grants;
    var t := Apply(s, a);
    FollowsGraph(s, a, id);
    if a.GrantOrRefuse? && Grants(s, a) { GrantedNobodyPast(s, a, id); }
    if id in s.table {
      if Still(s.table[id], t.table[id]) {
        StillPast(s.table[id], t.table[id]);
      } else {
        EdgeMoves(a, s.table[id], t.table[id]);
      }
      if PastTheWait(s.table[id]) { DueStays(s, a); }
      else { EntersPast(s, a, id); }
    }
  }

  lemma GrantSpaced(ps: seq<Permit>, next: real, now: real, rate: nat, idle: bool, p: Permit)
    requires rate >= 1 && Spaced(ps, next, now, rate) && next <= now && p.at == now
    ensures Spaced(ps + [p], Advance(next, now, rate, idle), now, rate)
  {
    var qs, next' := ps + [p], Advance(next, now, rate, idle);
    var n := |ps|;
    assert next' >= next + Interval(rate) && next' >= now - 1.0;
    hide Advance;
    assert Steps(0, rate) == 0.0;
    forall i | 0 <= i < |qs|
      ensures qs[i].at <= now && next' >= qs[i].at - 1.0 + Steps(n - i, rate)
      ensures i < n ==> now - qs[i].at >= Steps(n - i - 1, rate) - 1.0
    {
      if i < n { StepsNext(n - 1 - i, rate); }
      hide Steps;
    }
    hide Steps;
  }

  lemma PacedKept(s: Service, a: Action)
    requires Shape(s) && Records(s) && Possible(s, a) && Paced(s) && Shape(Apply(s, a)) &&
             Apply(s, a).config == s.config
    ensures Paced(Apply(s, a))
  {
    var t := Apply(s, a);
    forall id | id in t.table && PastTheWait(t.table[id]) ensures t.door.next <= t.clock.now { PastKept(s, a, id); }
    hide Spaced;
    var rate := s.config.rate;
    if a.GrantOrRefuse? {
      GrantDoor(s, a.i);
      assert s.door.next <= s.clock.now;
      hide Apply;
      hide Enabled;
      hide Shape;
      GrantSpaced(s.log.permits, s.door.next, s.clock.now, rate, s.door.idle,
                  Permit(s.gate[a.i], s.table[s.gate[a.i]].ticket, s.clock.now));
    } else {
      if a.FinishResume? { ResumeDoor(s, a.revision); } else { DoorStays(s, a); }
      hide Apply;
      hide Enabled;
      hide Shape;
      SpacedLater(s.log.permits, s.door.next, s.clock.now, t.door.next, t.clock.now, rate);
    }
  }

  /** After idling the first permit pays a full interval from now on, however long the idle time was. */
  lemma FirstAfterIdle(s: Service, i: nat)
    requires Possible(s, GrantOrRefuse(i)) && Grants(s, GrantOrRefuse(i)) && s.door.idle
    ensures Apply(s, GrantOrRefuse(i)).door.next >= s.clock.now + 1.0 / s.config.rate as real
  {
    GrantDoor(s, i);
    hide Apply;
    hide Enabled;
  }
}
