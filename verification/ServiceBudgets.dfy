/**
  How far a bounty can run past its cutoff: counted captures and permits whose
  outcome is still open never exceed the last allowed count (or the largest
  count the controller imported) by more than the concurrency.
*/
module ServiceBudgets {
  import opened Outcomes
  import opened BudgetCutoff
  import opened ServiceState
  import opened ServiceSteps
  import opened ServiceActions
  import opened ServiceShape
  import opened ServiceGraph
  import opened ServiceRecords
  import opened ServiceCounts

  /** The counted captures of a budget and its open permits, against what the cutoff allows. */
  ghost predicate Overshoot(s: Service, bounty: Bounty)
    requires bounty in s.budgets
  {
    var b := s.budgets[bounty];
    b.successes + |Unrecorded(s, bounty)| <= Max(b.stop - 1, b.largestImport) + s.config.concurrency
  }

  ghost predicate OvershootBounded(s: Service) {
    forall bounty :: bounty in s.budgets ==> Overshoot(s, bounty)
  }

  // -----------------------------------------------------------------
  // Open permits
  // -----------------------------------------------------------------

  lemma StillPermit(j: Job, k: Job)
    requires Still(j, k)
    ensures k.HoldsPermit() == j.HoldsPermit() && k.bounty == j.bounty
  {
  }

  /** No permit opens for a bounty except by a grant. */
  lemma UnrecordedShrinks(s: Service, a: Action, bounty: Bounty)
    requires Shape(s) && Records(s) && Possible(s, a) && !a.GrantOrRefuse?
    ensures Unrecorded(Apply(s, a), bounty) <= Unrecorded(s, bounty)
  {
    JobsFollowGraph(s, a);
    hide Shape;
    hide Enabled;
    hide Apply;
    hide Edge;
    hide Still;
    hide Serves;
    hide Rank;
    hide Coherent;
    var t := Apply(s, a);
    forall id | id in t.table && t.table[id].HoldsPermit() && t.table[id].bounty == bounty
      ensures id in s.table && s.table[id].HoldsPermit() && s.table[id].bounty == bounty
    {
      if id in s.table {
        assert Follows(s, t, a, id);
        if Still(s.table[id], t.table[id]) { StillPermit(s.table[id], t.table[id]); }
        else { EdgeMoves(a, s.table[id], t.table[id]); }
      }
    }
  }

  /** Every open permit is in the hands of a worker. */
  lemma UnrecordedWithinConcurrency(s: Service, bounty: Bounty)
    requires Shape(s) && Counts(s)
    ensures |Unrecorded(s, bounty)| <= s.config.concurrency
  {
    forall id | id in Unrecorded(s, bounty) ensures id in s.tls.busy {
      Places(s, id);
      assert s.LineOf(true) == s.tls;
      assert JobShape(s, id);
    }
    hide Shape;
    Fewer(Unrecorded(s, bounty), s.tls.busy);
    assert PoolExact(s, true);
  }

  // -----------------------------------------------------------------
  // Counts
  // -----------------------------------------------------------------

  /** Apart from its users, a budget is as before. */
  predicate SameCount(b: Budget, c: Budget) {
    c == b.(users := c.users)
  }

  predicate SameCounts(s: Service, t: Service) {
    t.budgets.Keys == s.budgets.Keys && forall b :: b in s.budgets ==> SameCount(s.budgets[b], t.budgets[b])
  }

  /** Only an import and a recorded capture change a count. */
  lemma RetireCount(s: Service, a: Action)
    requires Possible(s, a) && (a.CancelQueued? || a.RetireJob? || a.Leave?)
    ensures SameCounts(s, Apply(s, a))
  {
    hide Apply;
    hide Enabled;
    hide Vacate;
    match a
    case CancelQueued(id) => OnCancelQueued(s, id);
    case RetireJob(id) => OnRetireJob(s, id);
    case Leave(id) => OnLeave(s, id);
  }

  lemma CountsStay(s: Service, a: Action)
    requires Possible(s, a) && !a.SubmitAttempt? && !a.Record?
    ensures SameCounts(s, Apply(s, a))
  {
    hide Apply;
    hide Possible;
    if a.CancelQueued? || a.RetireJob? || a.Leave? { RetireCount(s, a); } else { StaysWithin(s, a); }
  }

  /** The effect of recording an outcome: one more for a capture, unless the counter is full. */
  lemma RecordCount(s: Service, id: JobId)
    requires Possible(s, Record(id))
    ensures id in s.table && s.table[id].phase.Ended?
    ensures var j := s.table[id]; var t := Apply(s, Record(id));
      t.budgets == if j.started &&
      j.bounty in s.budgets then s.budgets[j.bounty := Counted(s.budgets[j.bounty], j.captured)] else s.budgets
  {
    hide Apply;
    hide Enabled;
    OnRecord(s, id);
  }

  /** The effect of an import: the larger of the two counts. */
  lemma ImportCount(s: Service, id: JobId, domain: Domain, bounty: Bounty, target: nat, imported: Count,
                    victim: Option<Bounty>, spawn: bool)
    requires Possible(s, SubmitAttempt(id, domain, bounty, target, imported, victim, spawn))
    ensures var t := Apply(s, SubmitAttempt(id, domain, bounty, target, imported, victim, spawn));
      t.budgets == Import(s, bounty, target, imported, victim).budgets
  {
    hide Apply;
    hide Enabled;
    hide Import;
    OnSubmitAttempt(s, id, domain, bounty, target, imported, victim, spawn);
  }

  // -----------------------------------------------------------------
  // Theorems
  // -----------------------------------------------------------------

  lemma GrantOvershoot(s: Service, i: nat)
    requires Shape(s) && Records(s) && Possible(s, GrantOrRefuse(i)) && OvershootBounded(s)
    requires Shape(Apply(s, GrantOrRefuse(i))) && Counts(Apply(s, GrantOrRefuse(i)))
    ensures OvershootBounded(Apply(s, GrantOrRefuse(i)))
  {
    hide Apply;
    hide Possible;
    hide Shape;
    hide Counts;
    hide Records;
    var a, t := GrantOrRefuse(i), Apply(s, GrantOrRefuse(i));
    GrantedBelowStop(s, i);
    CountsStay(s, a);
    ConfigKept(s, a);
    forall bounty | bounty in t.budgets ensures Overshoot(t, bounty) {
      GrantUnrecorded(s, i, bounty);
      assert Overshoot(s, bounty) && SameCount(s.budgets[bounty], t.budgets[bounty]);
      if Unrecorded(t, bounty) <= Unrecorded(s, bounty) { Fewer(Unrecorded(t, bounty), Unrecorded(s, bounty)); }
      else { UnrecordedWithinConcurrency(t, bounty); }
    }
  }

  lemma ConfigKept(s: Service, a: Action)
    requires Possible(s, a)
    ensures Apply(s, a).config == s.config
  {
    hide Apply;
    hide Enabled;
    StaysWithin(s, a);
  }

  /** A permit is granted only below the stop. */
  lemma GrantedBelowStop(s: Service, i: nat)
    requires Possible(s, GrantOrRefuse(i))
    ensures i < |s.gate| && s.gate[i] in s.table
    ensures Apply(s, GrantOrRefuse(i)).table[s.gate[i]].phase.Connected? ==>
      BudgetBelowStop(s, s.table[s.gate[i]].bounty)
  {
    hide Apply;
    hide Enabled;
    OnGrantOrRefuse(s, i);
    hide Release;
  }

  /** A permit opens at most for the job that was granted. */
  lemma GrantUnrecorded(s: Service, i: nat, bounty: Bounty)
    requires Shape(s) && Records(s) && Possible(s, GrantOrRefuse(i)) && i < |s.gate| && s.gate[i] in s.table
    ensures var t, g := Apply(s, GrantOrRefuse(i)), s.gate[i];
      Unrecorded(t, bounty) <= Unrecorded(s, bounty) ||
      (g in t.table && t.table[g].phase.Connected? && bounty == s.table[g].bounty)
  {
    hide Apply;
    hide Possible;
    hide Shape;
    hide Edge;
    hide Still;
    hide Rank;
    hide Coherent;
    var t, g := Apply(s, GrantOrRefuse(i)), s.gate[i];
    JobsFollowGraph(s, GrantOrRefuse(i));
    if id :| id in Unrecorded(t, bounty) && id !in Unrecorded(s, bounty) {
      assert Follows(s, t, GrantOrRefuse(i), id);
      if Still(s.table[id], t.table[id]) { StillPermit(s.table[id], t.table[id]); }
      else { EdgeMoves(GrantOrRefuse(i), s.table[id], t.table[id]); }
    }
  }

  /** Theorem: no interleaving lets a bounty run past its cutoff by more than the concurrency. */
  lemma OvershootKept(s: Service, a: Action)
    requires Shape(s) && Records(s) && Counts(s) && OvershootBounded(s) && Possible(s, a)
    requires Shape(Apply(s, a)) && Counts(Apply(s, a))
    ensures OvershootBounded(Apply(s, a))
  {
    hide Shape;
    hide Counts;
    hide OvershootBounded;
    hide Apply;
    hide Enabled;
    match a
    case GrantOrRefuse(i) => GrantOvershoot(s, i);
    case Record(id) => RecordOvershoot(s, id);
    case SubmitAttempt(id, domain, bounty, target, imported, victim, spawn) =>
      ImportOvershoot(s, id, domain, bounty, target, imported, victim, spawn);
    case _ => QuietOvershoot(s, a);
  }

  lemma QuietOvershoot(s: Service, a: Action)
    requires Shape(s) && Records(s) && OvershootBounded(s) && Possible(s, a) && !a.GrantOrRefuse? && !a.Record? &&
             !a.SubmitAttempt?
    ensures OvershootBounded(Apply(s, a))
  {
    var t := Apply(s, a);
    CountsStay(s, a);
    ConfigKept(s, a);
    hide Apply;
    hide Enabled;
    forall bounty | bounty in t.budgets ensures Overshoot(t, bounty) {
      assert Overshoot(s, bounty) && SameCount(s.budgets[bounty], t.budgets[bounty]);
      UnrecordedShrinks(s, a, bounty);
      Fewer(Unrecorded(t, bounty), Unrecorded(s, bounty));
    }
  }

  /** A counted capture closes a permit, so the sum does not grow. */
  lemma RecordOvershoot(s: Service, id: JobId)
    requires Shape(s) && Records(s) && OvershootBounded(s) && Possible(s, Record(id))
    ensures OvershootBounded(Apply(s, Record(id)))
  {
    hide Apply;
    hide Possible;
    hide Shape;
    var a, t := Record(id), Apply(s, Record(id));
    RecordCount(s, id);
    ConfigKept(s, a);
    RecordClosesPermit(s, id);
    var j := s.table[id];
    assert j.captured && j.started ==> j.HoldsPermit() by { assert Coherent(j); }
    hide Records;
    forall bounty | bounty in t.budgets ensures Overshoot(t, bounty) {
      assert Overshoot(s, bounty);
      UnrecordedShrinks(s, a, bounty);
      Fewer(Unrecorded(t, bounty), Unrecorded(s, bounty));
      if j.HoldsPermit() && j.bounty == bounty {
        Less(Unrecorded(s, bounty), id);
        Fewer(Unrecorded(t, bounty), Unrecorded(s, bounty) - {id});
      }
    }
  }

  lemma RecordClosesPermit(s: Service, id: JobId)
    requires Possible(s, Record(id))
    ensures forall bounty :: id !in Unrecorded(Apply(s, Record(id)), bounty)
  {
    hide Apply;
    hide Enabled;
    OnRecord(s, id);
  }

  lemma ImportEffect(s: Service, bounty: Bounty, target: nat, imported: Count, victim: Option<Bounty>)
    ensures var m := Import(s, bounty, target, imported, victim).budgets;
      bounty in m && (forall b :: b in m && b != bounty ==> b in s.budgets && m[b] == s.budgets[b]) &&
      (m[bounty].successes <= m[bounty].largestImport ||
       (bounty in s.budgets && m[bounty].successes == s.budgets[bounty].successes &&
        m[bounty].stop == s.budgets[bounty].stop &&
        s.budgets[bounty].largestImport <= m[bounty].largestImport))
  {
    hide StopCount;
  }

  lemma ImportOvershoot(s: Service, id: JobId, domain: Domain, bounty: Bounty, target: nat, imported: Count,
                        victim: Option<Bounty>, spawn: bool)
    requires Shape(s) && Records(s) && Counts(s) && OvershootBounded(s)
    requires Possible(s, SubmitAttempt(id, domain, bounty, target, imported, victim, spawn))
    requires var t := Apply(s, SubmitAttempt(id, domain, bounty, target, imported, victim, spawn));
             Shape(t) && Counts(t)
    ensures OvershootBounded(Apply(s, SubmitAttempt(id, domain, bounty, target, imported, victim, spawn)))
  {
    hide Apply;
    hide Enabled;
    var a := SubmitAttempt(id, domain, bounty, target, imported, victim, spawn);
    var t := Apply(s, a);
    ImportCount(s, id, domain, bounty, target, imported, victim, spawn);
    ConfigKept(s, a);
    hide Import;
    hide OvershootBounded;
    forall b ensures Unrecorded(t, b) <= Unrecorded(s, b) && |Unrecorded(t, b)| <= t.config.concurrency {
      UnrecordedShrinks(s, a, b);
      UnrecordedWithinConcurrency(t, b);
    }
    hide Shape;
    hide Counts;
    AfterImport(s, t, bounty, target, imported, victim);
  }

  lemma AfterImport(s: Service, t: Service, bounty: Bounty, target: nat, imported: Count, victim: Option<Bounty>)
    requires OvershootBounded(s) && t.config == s.config &&
             t.budgets == Import(s, bounty, target, imported, victim).budgets
    requires forall b :: Unrecorded(t, b) <= Unrecorded(s, b) && |Unrecorded(t, b)| <= t.config.concurrency
    ensures OvershootBounded(t)
  {
    ImportEffect(s, bounty, target, imported, victim);
    hide Import;
    forall b | b in t.budgets ensures Overshoot(t, b) {
      Fewer(Unrecorded(t, b), Unrecorded(s, b));
      hide Unrecorded;
      if b in s.budgets { assert Overshoot(s, b); }
    }
  }

  /** A resident budget never counts down, and gains at most one per recorded capture or what the controller imports. */
  lemma CountsGrow(s: Service, a: Action, bounty: Bounty)
    requires Records(s) && Possible(s, a) && bounty in s.budgets && bounty in Apply(s, a).budgets
    ensures var b, c := s.budgets[bounty], Apply(s, a).budgets[bounty];
      b.successes <= c.successes && c.stop == b.stop && c.target == b.target && b.largestImport <= c.largestImport &&
      (b.successes < c.successes ==>
        (a.SubmitAttempt? && a.bounty == bounty && c.successes == a.imported) ||
        (a.Record? && a.id in s.table && s.table[a.id].captured && s.table[a.id].bounty == bounty &&
         c.successes == b.successes + 1))
  {
    hide Apply;
    hide Possible;
    hide StopCount;
    match a
    case Record(id) => RecordCount(s, id);
    case SubmitAttempt(id, domain, b, target, imported, victim, spawn) =>
      ImportCount(s, id, domain, b, target, imported, victim, spawn);
    case _ => CountsStay(s, a);
  }
}
