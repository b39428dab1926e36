/**
  Where a job may be: the pending queues, the running jobs, the connection gate
  and the worker threads agree with the phase of every job, in every state that
  any interleaving reaches.
*/
module ServiceShape {
  import opened ServiceState
  import opened ServiceSteps

  predicate Registered(p: Phase) {
    p.Queued? || p.Taken? || p.Selected? || p.Capturing? || p.Waiting? || p.Acking? || p.Acked? || p.AckFailed? ||
    p.Connected? || p.Ended? || p.Recorded? || p.Judging? || p.Reporting?
  }

  predicate Unregistered(p: Phase) {
    p.Retired? || p.Done? || p.Finished?
  }

  /** Phases that only an attempt passes through. */
  predicate AttemptPhase(p: Phase) {
    p.Selected? || p.Capturing? || p.Waiting? || p.Acking? || p.Acked? || p.AckFailed? || p.Connected? || p.Ended? ||
    p.Recorded? || p.Judging?
  }

  /** The record of a job against its membership in the queue, jobs, the workers' hands and the gate. */
  predicate JobOk(j: Job, queued: bool, live: bool, busy: bool, gated: bool) {
    (queued <==> j.phase.Queued?) &&
    (gated <==> j.InGate()) &&
    (busy <==> j.running && !j.phase.Finished?) &&
    (Registered(j.phase) ==> live) && (Unregistered(j.phase) ==> !live) &&
    (j.phase.Queued? ==> !j.running) &&
    (!j.running ==> j.phase.Queued? || j.phase.Retired? || j.phase.Finished?) &&
    (AttemptPhase(j.phase) ==> j.attempt)
  }

  ghost predicate JobShape(s: Service, id: JobId)
    requires id in s.table
  {
    var j := s.table[id];
    1 <= id <= s.lastId &&
    JobOk(j, id in s.LineOf(j.attempt).pending, id in s.live, id in s.LineOf(j.attempt).busy, id in s.gate)
  }

  ghost predicate Increasing(q: seq<JobId>) {
    forall i, k :: 0 <= i < k < |q| ==> q[i] < q[k]
  }

  /** A pool only ever holds jobs of its own kind. */
  ghost predicate LineShape(s: Service, attempt: bool) {
    var line := s.LineOf(attempt);
    Increasing(line.pending) &&
    (forall id :: id in line.pending ==> id in s.table && s.table[id].attempt == attempt) &&
    (forall id :: id in line.busy ==> id in s.table && s.table[id].attempt == attempt)
  }

  /** The gate is ordered by arrival, and only its head may be past the wait. */
  ghost predicate GateShape(s: Service) {
    (forall i :: 0 <= i < |s.gate| ==> s.gate[i] in s.table && s.table[s.gate[i]].ticket < s.log.arrivals) &&
    (forall i, k :: 0 <= i < k < |s.gate| ==> s.table[s.gate[i]].ticket < s.table[s.gate[k]].ticket) &&
    (forall i :: 0 < i < |s.gate| ==> s.table[s.gate[i]].phase.Waiting?)
  }

  ghost predicate Shape(s: Service) {
    GoodConfig(s.config) &&
    s.live <= s.table.Keys &&
    (forall id :: id in s.table ==> JobShape(s, id)) &&
    LineShape(s, true) && LineShape(s, false) && GateShape(s)
  }

  // -----------------------------------------------------------------
  // Sequences without an element
  // -----------------------------------------------------------------

  lemma {:induction false} EraseMembers(q: seq<JobId>, x: JobId)
    requires Increasing(q)
    ensures forall id :: id in Erase(q, x) <==> id in q && id != x
    ensures Increasing(Erase(q, x))
    ensures |Erase(q, x)| == |q| - if x in q then 1 else 0
  {
    if q != [] {
      assert q == [q[0]] + q[1..];
      assert Increasing(q[1..]);
      if q[0] != x {
        EraseMembers(q[1..], x);
        var r := Erase(q[1..], x);
        forall k | 0 <= k < |r| ensures q[0] < r[k] { assert r[k] in q[1..]; }
      } else {
        assert x !in q[1..];
      }
    }
  }

  lemma GateDistinct(s: Service, i: nat, k: nat)
    requires GateShape(s) && i < |s.gate| && k < |s.gate| && i != k
    ensures s.gate[i] != s.gate[k]
  {
    if i < k { assert s.table[s.gate[i]].ticket < s.table[s.gate[k]].ticket; }
    else { assert s.table[s.gate[k]].ticket < s.table[s.gate[i]].ticket; }
  }

  lemma WithoutMembers(s: Service, i: nat)
    requires GateShape(s) && i < |s.gate|
    ensures forall id :: id in Without(s.gate, i) <==> id in s.gate && id != s.gate[i]
  {
    var r := Without(s.gate, i);
    forall id | id in s.gate && id != s.gate[i] ensures id in r {
      var k :| 0 <= k < |s.gate| && s.gate[k] == id;
      if k < i { assert r[k] == id; } else { assert r[k - 1] == id; }
    }
    forall id | id in r ensures id in s.gate && id != s.gate[i] {
      var k :| 0 <= k < |r| && r[k] == id;
      GateDistinct(s, if k < i then k else k + 1, i);
    }
  }

  // -----------------------------------------------------------------
  // Generic preservation
  // -----------------------------------------------------------------

  /** Everything outside the table that Shape looks at. */
  predicate SamePlaces(s: Service, t: Service) {
    s.config == t.config && s.live == t.live && s.gate == t.gate && s.lastId == t.lastId &&
    s.tls.pending == t.tls.pending && s.tls.busy == t.tls.busy &&
    s.dns.pending == t.dns.pending && s.dns.busy == t.dns.busy && s.log.arrivals == t.log.arrivals
  }

  /** A change of records alone keeps the shape when every record still fits its places. */
  lemma RecordsKeepShape(s: Service, t: Service)
    requires Shape(s) && SamePlaces(s, t) && t.table.Keys == s.table.Keys
    requires forall id :: id in s.table ==>
      t.table[id].attempt == s.table[id].attempt && t.table[id].ticket == s.table[id].ticket &&
      JobOk(t.table[id], id in s.LineOf(s.table[id].attempt).pending, id in s.live,
            id in s.LineOf(s.table[id].attempt).busy, id in s.gate)
    requires forall i :: 0 < i < |s.gate| ==> t.table[s.gate[i]].phase.Waiting?
    ensures Shape(t)
  {
    forall id | id in t.table ensures JobShape(t, id) { assert JobShape(s, id); }
  }

  /** One record moves on, and nothing that Shape looks at changes elsewhere. */
  lemma PutKeepsShape(s: Service, t: Service, id: JobId, j: Job)
    requires Shape(s) && id in s.table
    requires t.table == s.table[id := j] && SamePlaces(s, t)
    requires j.attempt == s.table[id].attempt && j.ticket == s.table[id].ticket
    requires JobOk(j, id in s.LineOf(j.attempt).pending, id in s.live, id in s.LineOf(j.attempt).busy, id in s.gate)
    requires s.table[id].phase.Waiting? ==> j.phase.Waiting? || !(|s.gate| > 0 && s.gate[0] != id)
    ensures Shape(t)
  {
    forall other | other in s.table ensures
      JobOk(t.table[other], other in s.LineOf(s.table[other].attempt).pending, other in s.live,
            other in s.LineOf(s.table[other].attempt).busy, other in s.gate)
    {
      assert JobShape(s, other);
    }
    RecordsKeepShape(s, t);
  }

  /** The record of a job fits the places that the job is in. */
  lemma FitsPlaces(s: Service, id: JobId)
    requires Shape(s) && id in s.table
    ensures var j := s.table[id];
      JobOk(j, id in s.LineOf(j.attempt).pending, id in s.live, id in s.LineOf(j.attempt).busy, id in s.gate)
  {
    assert JobShape(s, id);
  }

  lemma NotifiedWaits(s: Service, t: Service)
    requires GateShape(s) && t.table.Keys == s.table.Keys
    requires forall id :: id in s.table && s.table[id].phase.Waiting? ==> t.table[id].phase.Waiting?
    ensures forall i :: 0 < i < |s.gate| ==> t.table[s.gate[i]].phase.Waiting?
  {
  }

  lemma NotifyKeepsShape(s: Service, ids: set<JobId>)
    requires Shape(s)
    ensures Shape(s.(table := Notify(s.table, ids)))
  {
    var t := s.(table := Notify(s.table, ids));
    forall id | id in s.table ensures
      JobOk(t.table[id], id in s.LineOf(s.table[id].attempt).pending, id in s.live,
            id in s.LineOf(s.table[id].attempt).busy, id in s.gate)
    {
      FitsPlaces(s, id);
      hide Shape;
      NotifiedOk(s.table[id], id in s.LineOf(s.table[id].attempt).pending, id in s.live,
                 id in s.LineOf(s.table[id].attempt).busy, id in s.gate);
      hide JobOk;
    }
    NotifiedWaits(s, t);
    hide Shape;
    hide JobOk;
    RecordsKeepShape(s, t);
  }

  lemma CancelAllKeepsShape(s: Service)
    requires Shape(s)
    ensures Shape(CancelAll(s))
  {
    var t := CancelAll(s);
    forall id | id in s.table ensures
      JobOk(t.table[id], id in s.LineOf(s.table[id].attempt).pending, id in s.live,
            id in s.LineOf(s.table[id].attempt).busy, id in s.gate)
    {
      FitsPlaces(s, id);
      hide Shape;
      NotifiedOk(s.table[id].(cancelRequested := true), id in s.LineOf(s.table[id].attempt).pending, id in s.live,
                 id in s.LineOf(s.table[id].attempt).busy, id in s.gate);
      hide JobOk;
    }
    NotifiedWaits(s, t);
    hide Shape;
    hide JobOk;
    RecordsKeepShape(s, t);
  }

  lemma NotifiedOk(j: Job, queued: bool, live: bool, busy: bool, gated: bool)
    requires JobOk(j, queued, live, busy, gated)
    ensures JobOk(j.Notified(), queued, live, busy, gated)
  {
  }

  /** Where the phase of a job puts it. */
  lemma Places(s: Service, id: JobId)
    requires Shape(s) && id in s.table
    ensures var j := s.table[id];
      (id in s.LineOf(j.attempt).pending <==> j.phase.Queued?) && (id in s.gate <==> j.InGate()) &&
      (id in s.LineOf(j.attempt).busy <==> j.running && !j.phase.Finished?) &&
      (Registered(j.phase) ==> id in s.live) && (Unregistered(j.phase) ==> id !in s.live) &&
      (AttemptPhase(j.phase) ==> j.attempt)
  {
    assert JobShape(s, id);
  }

  /** The other jobs keep their shape when their record and their places do. */
  lemma OtherKeepsShape(s: Service, t: Service, id: JobId)
    requires id in s.table && id in t.table && JobShape(s, id)
    requires t.table[id] == s.table[id] || t.table[id] == s.table[id].Notified()
    requires s.lastId <= t.lastId && (id in s.live <==> id in t.live) && (id in s.gate <==> id in t.gate)
    requires id in s.LineOf(s.table[id].attempt).pending <==> id in t.LineOf(s.table[id].attempt).pending
    requires id in s.LineOf(s.table[id].attempt).busy <==> id in t.LineOf(s.table[id].attempt).busy
    ensures JobShape(t, id)
  {
    var j := s.table[id];
    NotifiedOk(j, id in s.LineOf(j.attempt).pending, id in s.live, id in s.LineOf(j.attempt).busy, id in s.gate);
    hide JobOk;
  }

  lemma LinesKept(s: Service, t: Service)
    requires LineShape(s, true) && LineShape(s, false)
    requires t.table.Keys >= s.table.Keys && forall id :: id in s.table ==> t.table[id].attempt == s.table[id].attempt
    requires t.tls.pending == s.tls.pending && t.dns.pending == s.dns.pending && t.tls.busy <= s.tls.busy &&
             t.dns.busy <= s.dns.busy
    ensures LineShape(t, true) && LineShape(t, false)
  {
  }

  lemma LineShrinks(s: Service, t: Service, attempt: bool)
    requires LineShape(s, attempt)
    requires t.table.Keys >= s.table.Keys && forall id :: id in s.table ==> t.table[id].attempt == s.table[id].attempt
    requires Increasing(t.LineOf(attempt).pending) && t.LineOf(attempt).busy <= s.LineOf(attempt).busy
    requires forall id :: id in t.LineOf(attempt).pending ==> id in s.LineOf(attempt).pending
    ensures LineShape(t, attempt)
  {
  }

  lemma Assemble(t: Service)
    requires GoodConfig(t.config) && t.live <= t.table.Keys
    requires forall id :: id in t.table ==> JobShape(t, id)
    requires LineShape(t, true) && LineShape(t, false) && GateShape(t)
    ensures Shape(t)
  {
  }

  /** A job leaves the gate at index i; its record moves to a phase outside the gate. */
  lemma ReleaseKeepsShape(s: Service, t: Service, i: nat, j: Job)
    requires Shape(s) && i < |s.gate|
    requires t.table == Release(s, i).table[s.gate[i] := j] && t.gate == Without(s.gate, i)
    requires SamePlaces(s, t.(gate := s.gate))
    requires j.attempt == s.table[s.gate[i]].attempt
    requires JobOk(j, false, true, s.gate[i] in s.LineOf(j.attempt).busy, false)
    ensures Shape(t)
  {
    var id := s.gate[i];
    WithoutMembers(s, i);
    Places(s, id);
    hide JobOk;
    assert LineShape(t, true) && LineShape(t, false) by {
      forall other | other in s.table ensures t.table[other].attempt == s.table[other].attempt { }
      hide Release;
      hide Without;
      hide LineShape;
      LinesKept(s, t);
    }
    assert GateShape(t) by { ReleaseKeepsGate(s, t, i, j); }
    hide LineShape;
    hide GateShape;
    forall other | other in t.table ensures JobShape(t, other) {
      assert JobShape(s, other);
      if other != id { OtherKeepsShape(s, t, other); }
    }
    Assemble(t);
  }

  lemma ReleaseKeepsGate(s: Service, t: Service, i: nat, j: Job)
    requires GateShape(s) && i < |s.gate|
    requires t.table == Release(s, i).table[s.gate[i] := j] && t.gate == Without(s.gate, i) &&
             t.log.arrivals == s.log.arrivals
    ensures GateShape(t)
  {
    forall k | 0 <= k < |t.gate|
      ensures t.gate[k] == s.gate[Shifted(i, k)] && t.gate[k] in t.table
      ensures t.table[t.gate[k]].ticket == s.table[s.gate[Shifted(i, k)]].ticket
      ensures s.table[s.gate[Shifted(i, k)]].phase.Waiting? ==> t.table[t.gate[k]].phase.Waiting?
    {
      GateDistinct(s, Shifted(i, k), i);
    }
    hide Release;
    hide Without;
    GateFromShift(s, t, i);
  }

  /** The index in a queue of what stands at index k once index i is gone. */
  function Shifted(i: nat, k: nat): nat {
    if k < i then k else k + 1
  }

  lemma GateFromShift(s: Service, t: Service, i: nat)
    requires GateShape(s) && i < |s.gate| && |t.gate| == |s.gate| - 1 && t.log.arrivals == s.log.arrivals
    requires forall k :: 0 <= k < |t.gate| ==> t.gate[k] == s.gate[Shifted(i, k)] && t.gate[k] in t.table
    requires forall k :: 0 <= k < |t.gate| ==> t.table[t.gate[k]].ticket == s.table[s.gate[Shifted(i, k)]].ticket
    requires forall k :: 0 <= k < |t.gate| ==>
      s.table[s.gate[Shifted(i, k)]].phase.Waiting? ==> t.table[t.gate[k]].phase.Waiting?
    ensures GateShape(t)
  {
    forall k | 0 <= k < |t.gate| ensures t.table[t.gate[k]].ticket < t.log.arrivals {
      assert s.gate[Shifted(i, k)] in s.table;
    }
    forall k, m | 0 <= k < m < |t.gate| ensures t.table[t.gate[k]].ticket < t.table[t.gate[m]].ticket {
      assert Shifted(i, k) < Shifted(i, m);
    }
    forall k | 0 < k < |t.gate| ensures t.table[t.gate[k]].phase.Waiting? {
      assert 0 < Shifted(i, k);
    }
  }

  /** A registered job is retired; its record moves to an unregistered phase, or its worker leaves it. */
  lemma RetireKeepsShape(s: Service, t: Service, id: JobId, j: Job, leave: bool)
    requires Shape(s) && id in s.table
    requires s.table[id].phase.Queued? || s.table[id].phase.Reporting? || s.table[id].phase.Done? ||
             s.table[id].phase.Doomed?
    requires t.table == s.table[id := j] && t.live == s.live - {id} && t.gate == s.gate
    requires t.config == s.config && t.lastId == s.lastId && t.log.arrivals == s.log.arrivals
    requires t.LineOf(!j.attempt).pending == s.LineOf(!j.attempt).pending
    requires t.LineOf(j.attempt).pending ==
             if s.table[id].phase.Queued? then Erase(s.LineOf(j.attempt).pending, id) else s.LineOf(j.attempt).pending
    requires t.tls.busy == if leave then s.tls.busy - {id} else s.tls.busy
    requires t.dns.busy == if leave then s.dns.busy - {id} else s.dns.busy
    requires j.attempt == s.table[id].attempt
    requires JobOk(j, false, false, !leave && id in s.LineOf(j.attempt).busy, false)
    ensures Shape(t)
  {
    hide JobOk;
    hide Erase;
    Places(s, id);
    assert s.live - {id} <= t.table.Keys;
    assert id !in s.gate && GateShape(s);
    RetireLines(s, t, id, j.attempt, s.table[id].phase.Queued?);
    GateUntouched(s, t, id, j);
    hide LineShape;
    hide GateShape;
    hide Increasing;
    forall other | other in t.table ensures JobShape(t, other) {
      assert JobShape(s, other);
      if other != id {
        assert s.table[other].attempt == j.attempt || s.table[other].attempt == !j.attempt;
        OtherKeepsShape(s, t, other);
      }
    }
    Assemble(t);
  }

  /** The lines after a job has been taken out of its queue, if it was queued. */
  lemma RetireLines(s: Service, t: Service, id: JobId, attempt: bool, queued: bool)
    requires Shape(s) && id in s.table
    requires t.table.Keys == s.table.Keys && forall other :: other in s.table ==>
      t.table[other].attempt == s.table[other].attempt
    requires t.LineOf(!attempt).pending == s.LineOf(!attempt).pending && t.tls.busy <= s.tls.busy &&
             t.dns.busy <= s.dns.busy
    requires t.LineOf(attempt).pending ==
             if queued then Erase(s.LineOf(attempt).pending, id) else s.LineOf(attempt).pending
    ensures LineShape(t, true) && LineShape(t, false)
    ensures forall other :: other != id ==> (other in t.LineOf(attempt).pending <==> other in s.LineOf(attempt).pending)
    ensures queued ==> id !in t.LineOf(attempt).pending
  {
    assert LineShape(s, attempt) && LineShape(s, !attempt);
    hide Shape;
    EraseMembers(s.LineOf(attempt).pending, id);
    hide Erase;
    LineShrinks(s, t, attempt);
    LineShrinks(s, t, !attempt);
  }

  lemma GateUntouched(s: Service, t: Service, id: JobId, j: Job)
    requires GateShape(s) && t.gate == s.gate && id !in s.gate && t.table == s.table[id := j] &&
             t.log.arrivals == s.log.arrivals
    ensures GateShape(t)
  {
    assert forall i :: 0 <= i < |s.gate| ==> s.gate[i] != id;
  }

  // -----------------------------------------------------------------
  // The sections that change membership
  // -----------------------------------------------------------------

  /** An id above every id seen so far is nowhere. */
  lemma FreshEverywhere(s: Service, id: JobId)
    requires Shape(s) && id > s.lastId
    ensures id !in s.table && id !in s.gate && id !in s.live
    ensures forall attempt :: id !in s.LineOf(attempt).pending && id !in s.LineOf(attempt).busy
  {
    forall k | k in s.table ensures k <= s.lastId { assert JobShape(s, k); }
    assert id !in s.table;
    forall attempt: bool
      ensures id !in s.LineOf(attempt).pending && id !in s.LineOf(attempt).busy
    {
      assert LineShape(s, attempt);
    }
    forall i | 0 <= i < |s.gate| ensures s.gate[i] != id { assert s.gate[i] in s.table; }
  }

  lemma PendingBelow(s: Service, attempt: bool)
    requires Shape(s)
    ensures forall k :: 0 <= k < |s.LineOf(attempt).pending| ==> s.LineOf(attempt).pending[k] <= s.lastId
  {
    var q := s.LineOf(attempt).pending;
    assert LineShape(s, attempt);
    forall k | 0 <= k < |q| ensures q[k] <= s.lastId { assert q[k] in q; assert JobShape(s, q[k]); }
  }

  lemma SubmitLine(s: Service, t: Service, id: JobId, attempt: bool, queued: bool)
    requires Shape(s) && id > s.lastId && id !in s.table
    requires id in t.table && t.table == s.table[id := t.table[id]] && (queued ==> t.table[id].attempt == attempt)
    requires t.LineOf(attempt).busy == s.LineOf(attempt).busy
    requires t.LineOf(attempt).pending == if queued then s.LineOf(attempt).pending + [id] else s.LineOf(attempt).pending
    ensures LineShape(t, attempt)
  {
    PendingBelow(s, attempt);
    assert LineShape(s, attempt);
    hide Shape;
  }

  lemma SubmitKeepsShape(s: Service, t: Service, id: JobId, j: Job)
    requires Shape(s) && id > s.lastId
    requires JobOk(j, true, true, false, false)
    requires t.table == s.table[id := j] && t.live == s.live + {id} && t.gate == s.gate && t.lastId == id
    requires t.config == s.config && t.log.arrivals == s.log.arrivals
    requires forall attempt :: t.LineOf(attempt).busy == s.LineOf(attempt).busy
    requires t.LineOf(!j.attempt).pending == s.LineOf(!j.attempt).pending
    requires t.LineOf(j.attempt).pending == s.LineOf(j.attempt).pending + [id]
    ensures Shape(t)
  {
    hide JobOk;
    hide LineShape;
    FreshEverywhere(s, id);
    SubmitLine(s, t, id, j.attempt, true);
    SubmitLine(s, t, id, !j.attempt, false);
    assert GateShape(t) by { GateUntouched(s, t, id, j); }
    hide GateShape;
    forall other | other in t.table ensures JobShape(t, other) {
      if other != id {
        assert JobShape(s, other);
        OtherKeepsShape(s, t, other);
      }
    }
    Assemble(t);
  }

  lemma TakeKeepsShape(s: Service, attempt: bool)
    requires Shape(s) && CanTake(s, attempt)
    ensures Shape(DoTake(s, attempt))
  {
    var q := s.LineOf(attempt).pending;
    var id := q[0];
    assert LineShape(s, attempt) && JobShape(s, id);
    var j := s.table[id].(phase := Taken, running := true);
    assert JobOk(j, false, true, true, false);
    hide JobOk;
    hide Shape;
    hide LineShape;
    hide JobShape;
    var t := DoTake(s, attempt);
    assert q == [id] + t.LineOf(attempt).pending;
    TakenKeepsShape(s, t, id, j);
  }

  lemma PopMembers(q: seq<JobId>, rest: seq<JobId>, id: JobId)
    requires Increasing(q) && q == [id] + rest
    ensures Increasing(rest) && forall other :: other in rest <==> other in q && other != id
  {
    forall k | 0 <= k < |rest| ensures rest[k] == q[k + 1] && rest[k] != id { assert q[0] < q[k + 1]; }
  }

  lemma TakenKeepsShape(s: Service, t: Service, id: JobId, j: Job)
    requires Shape(s) && id in s.table && j.attempt == s.table[id].attempt
    requires JobOk(j, false, true, true, false)
    requires t == s.(table := s.table[id := j], tls := t.tls, dns := t.dns) &&
             t.LineOf(!j.attempt) == s.LineOf(!j.attempt)
    requires s.LineOf(j.attempt).pending == [id] + t.LineOf(j.attempt).pending
    requires t.LineOf(j.attempt).busy == s.LineOf(j.attempt).busy + {id}
    ensures Shape(t)
  {
    Places(s, id);
    hide JobOk;
    var q := s.LineOf(j.attempt).pending;
    assert LineShape(s, j.attempt) && LineShape(s, !j.attempt);
    PopMembers(q, t.LineOf(j.attempt).pending, id);
    assert LineShape(t, j.attempt) && LineShape(t, !j.attempt);
    assert GateShape(t);
    hide LineShape;
    hide GateShape;
    forall other | other in t.table ensures JobShape(t, other) {
      assert JobShape(s, other);
      if other != id { OtherKeepsShape(s, t, other); }
    }
    Assemble(t);
  }

  lemma GateArrives(s: Service, t: Service, id: JobId)
    requires GateShape(s) && id !in s.gate && id in t.table
    requires t.gate == s.gate + [id] && t.log.arrivals == s.log.arrivals + 1
    requires forall other :: other in s.table && other != id ==> other in t.table && t.table[other] == s.table[other]
    requires t.table[id].ticket == s.log.arrivals && t.table[id].phase.Waiting?
    ensures GateShape(t)
  {
    forall i | 0 <= i < |s.gate| ensures t.gate[i] == s.gate[i] && s.gate[i] != id { }
  }

  /** Arrival at the end of the gate. */
  lemma ArrivalKeepsShape(s: Service, id: JobId)
    requires Shape(s) && id in s.table && s.table[id].phase.Capturing?
    ensures Shape(Arrived(s, id))
  {
    var t := Arrived(s, id);
    FitsPlaces(s, id);
    assert JobOk(t.table[id], false, true, id in s.LineOf(s.table[id].attempt).busy, true);
    Places(s, id);
    hide JobOk;
    assert GateShape(t) by { GateArrives(s, t, id); }
    assert LineShape(t, true) && LineShape(t, false) by {
      hide LineShape;
      LinesKept(s, t);
    }
    hide LineShape;
    hide GateShape;
    forall other | other in t.table ensures JobShape(t, other) {
      assert JobShape(s, other);
      if other != id { OtherKeepsShape(s, t, other); }
    }
    Assemble(t);
  }
}
