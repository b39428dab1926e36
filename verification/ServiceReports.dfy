/** The terminal frame of every attempt carries a count, and that was the count of its bounty at some time before. */
module ServiceReports {
  import opened Outcomes
  import opened BudgetCutoff
  import opened ServiceState
  import opened ServiceSteps
  import opened ServiceActions
  import opened ServiceShape
  import opened ServiceGraph
  import opened ServiceRecords
  import opened ServiceAdmission
  import opened ServicePermits
  import opened ServiceRuns
  import opened ServiceOrder

  /** A number was the count of a bounty at some time. */
  ghost predicate Was(states: seq<Service>, k: nat, bounty: Bounty, count: Count) {
    exists m :: 0 <= m <= k && CountAt(states, m, bounty, count)
  }

  ghost predicate CountAt(states: seq<Service>, m: int, bounty: Bounty, count: Count) {
    0 <= m < |states| && bounty in states[m].budgets && states[m].budgets[bounty].successes == count
  }

  /** What a job says about its bounty was true at some time. */
  ghost predicate Truthful(states: seq<Service>, k: nat, j: Job) {
    (j.successes.Some? ==> Was(states, k, j.bounty, j.successes.value)) &&
    (j.phase.Reporting? || j.phase.Retired? ==> j.phase.count.Some? && Was(states, k, j.bounty, j.phase.count.value))
  }

  lemma WasLater(states: seq<Service>, k: nat, bounty: Bounty, count: Count)
    requires k > 0 && Was(states, k - 1, bounty, count)
    ensures Was(states, k, bounty, count)
  {
    var m :| 0 <= m <= k - 1 && CountAt(states, m, bounty, count);
  }

  /** A live attempt finds its budget. */
  lemma BudgetKnown(s: Service, id: JobId)
    requires Sound(s) && id in s.table && s.table[id].attempt && Registered(s.table[id].phase)
    ensures s.table[id].bounty in s.budgets
  {
    LookupsSucceed(s, id);
    hide Sound;
    SoundShape(s);
    assert JobShape(s, id) by { hide LineShape; hide GateShape; }
    hide Shape;
  }

  lemma SoundShape(s: Service)
    requires Sound(s)
    ensures Shape(s) && Records(s)
  {
    hide Shape;
    hide Records;
  }

  /** A report takes what the job remembers, or else the count as it is. */
  lemma ReportTakes(s: Service, id: JobId)
    requires Possible(s, Report(id)) && id in s.table && s.table[id].attempt && s.table[id].bounty in s.budgets
    ensures id in Apply(s, Report(id)).table
    ensures var j, k := s.table[id], Apply(s, Report(id)).table[id];
            k == j.(phase := Reporting(if j.successes.Some? then j.successes
                                       else Some(s.budgets[j.bounty].successes)))
  {
    hide Apply;
    hide Enabled;
    OnReport(s, id);
  }

  /** A job that is cancelled in the queue takes the count as it is. */
  lemma QueuedTakes(s: Service, id: JobId)
    requires Possible(s, CancelQueued(id)) && id in s.table && s.table[id].attempt && s.table[id].bounty in s.budgets
    ensures id in Apply(s, CancelQueued(id)).table
    ensures var j, k, n := s.table[id], Apply(s, CancelQueued(id)).table[id], s.budgets[s.table[id].bounty].successes;
            k == j || k == j.(successes := Some(n), phase := Retired(Some(n)))
  {
    hide Apply;
    hide Enabled;
    hide Retire;
    OnCancelQueued(s, id);
  }

  /** A resolution is no attempt. */
  lemma ResolvesNone(s: Service, a: Action)
    requires Possible(s, a) && (a.ResolveCached? || a.ResolveFresh? || a.ResolveCancelled?)
    ensures a.id in s.table && !s.table[a.id].attempt
  {
    hide Apply;
    hide CanStoreDns;
  }

  /** Edges on which a job comes to know a count. */
  predicate Learns(a: Action, id: JobId) {
    a == CancelQueued(id) || a == Record(id) || a == Report(id)
  }

  /** Other edges keep what a job says. */
  lemma EdgeKeepsWord(s: Service, a: Action, id: JobId, k: Job)
    requires id in s.table && Serves(s, a, id) && Edge(a, s.table[id], k) && !Learns(a, id)
    requires !a.ResolveCached? && !a.ResolveFresh? && !a.ResolveCancelled?
    ensures var j := s.table[id];
            k.bounty == j.bounty && k.successes == j.successes &&
            (k.phase.Reporting? || k.phase.Retired? ==> j.phase.Reporting? && k.phase.count == j.phase.count)
  {
    hide TurnEdge;
    var j := s.table[id];
    EarlyWord(a, j, k);
    GateWord(a, j, k);
    LateWord(a, j, k);
    hide EarlyEdge;
    hide GateEdge;
    hide LateEdge;
  }

  lemma EarlyWord(a: Action, j: Job, k: Job)
    requires !a.CancelQueued? && !a.ResolveCached? && !a.ResolveFresh? && !a.ResolveCancelled?
    ensures EarlyEdge(a, j, k) ==>
              k.bounty == j.bounty && k.successes == j.successes && !k.phase.Reporting? && !k.phase.Retired?
  {
  }

  lemma TurnWord(j: Job, k: Job)
    requires TurnEdge(j, k)
    ensures k.bounty == j.bounty && k.successes == j.successes && !k.phase.Reporting? && !k.phase.Retired?
  {
  }

  lemma GateWord(a: Action, j: Job, k: Job)
    ensures GateEdge(a, j, k) ==>
              k.bounty == j.bounty && k.successes == j.successes && !k.phase.Reporting? && !k.phase.Retired?
  {
    hide TurnEdge;
    if a.Wake? && TurnEdge(j, k) { TurnWord(j, k); }
    if a.EnterGate? && TurnEdge(j.(ticket := k.ticket), k) { TurnWord(j.(ticket := k.ticket), k); }
  }

  /** Where a job comes to know a count. */
  lemma LearningEdge(a: Action, id: JobId, j: Job, k: Job)
    requires Edge(a, j, k) && Learns(a, id)
    ensures Registered(j.phase)
    ensures a.Record? ==> k.phase.Recorded? || (k.successes == j.successes && k.phase.Judging?)
  {
    hide TurnEdge;
  }

  lemma LateWord(a: Action, j: Job, k: Job)
    requires !a.Record? && !a.Report?
    ensures LateEdge(a, j, k) ==>
              k.bounty == j.bounty && k.successes == j.successes && !k.phase.Reporting? && !k.phase.Retired?
  {
  }

  lemma {:induction false} AlwaysTruthful(states: seq<Service>, actions: seq<Action>, config: Config, start: real,
                                          k: nat, id: JobId)
    requires Run(states, actions, config, start) && |states| == |actions| + 1 && k < |states|
    requires id in states[k].table && states[k].table[id].attempt
    ensures Truthful(states, k, states[k].table[id])
    decreases k
  {
    hide Run;
    hide Apply;
    hide Possible;
    hide Sound;
    hide Truthful;
    if k == 0 {
      EmptyAtFirst(states, actions, config, start);
    } else {
      StepOf(states, actions, config, start, k - 1);
      RunSound(states, actions, config, start, k - 1);
      RunSound(states, actions, config, start, k);
      SoundShape(states[k - 1]);
      SoundShape(states[k]);
      hide Shape;
      FollowsGraph(states[k - 1], actions[k - 1], id);
      if id in states[k - 1].table {
        SameKind(states[k - 1], actions[k - 1], id);
        AlwaysTruthful(states, actions, config, start, k - 1, id);
        TruthfulStep(states, k, states[k - 1], actions[k - 1], states[k], id);
      } else {
        NewTruthful(states, k, states[k], id);
      }
    }
  }

  lemma EmptyAtFirst(states: seq<Service>, actions: seq<Action>, config: Config, start: real)
    requires Run(states, actions, config, start)
    ensures |states| > 0 && states[0].table == map[]
  {
  }

  lemma SameKind(s: Service, a: Action, id: JobId)
    requires Shape(s) && Records(s) && Possible(s, a) && id in s.table
    ensures id in Apply(s, a).table && Apply(s, a).table[id].attempt == s.table[id].attempt &&
            Apply(s, a).table[id].bounty == s.table[id].bounty
  {
    hide Apply;
    hide Possible;
    hide Shape;
    hide Records;
    RecordsStay(s, a);
  }

  lemma NewTruthful(states: seq<Service>, k: nat, t: Service, id: JobId)
    requires Records(t) && id in t.table && t.table[id].phase.Queued?
    ensures Truthful(states, k, t.table[id])
  {
    assert Coherent(t.table[id]);
  }

  /** One step of what a job says. */
  lemma TruthfulStep(states: seq<Service>, k: nat, s: Service, a: Action, t: Service, id: JobId)
    requires 0 < k < |states| && states[k - 1] == s && states[k] == t && Possible(s, a) && t == Apply(s, a)
    requires Sound(s) && id in s.table && id in t.table && s.table[id].attempt && Follows(s, t, a, id)
    requires Truthful(states, k - 1, s.table[id]) && t.table[id].bounty == s.table[id].bounty
    ensures Truthful(states, k, t.table[id])
  {
    hide Apply;
    hide Possible;
    hide Sound;
    hide Was;
    hide Edge;
    hide Serves;
    var j, n := s.table[id], t.table[id];
    if j.successes.Some? { WasLater(states, k, j.bounty, j.successes.value); }
    if j.phase.Reporting? || j.phase.Retired? { WasLater(states, k, j.bounty, j.phase.count.value); }
    if !Still(j, n) {
      if Learns(a, id) {
        LearnsTruth(states, k, s, a, t, id);
      } else {
        if a.ResolveCached? || a.ResolveFresh? || a.ResolveCancelled? { ResolvesServe(s, a, id); ResolvesNone(s, a); }
        EdgeKeepsWord(s, a, id, n);
      }
    }
  }

  lemma ResolvesServe(s: Service, a: Action, id: JobId)
    requires Serves(s, a, id) && (a.ResolveCached? || a.ResolveFresh? || a.ResolveCancelled?)
    ensures a.id == id
  {
  }

  lemma LearnsTruth(states: seq<Service>, k: nat, s: Service, a: Action, t: Service, id: JobId)
    requires 0 < k < |states| && states[k - 1] == s && states[k] == t && Possible(s, a) && t == Apply(s, a)
    requires Sound(s) && id in s.table && id in t.table && s.table[id].attempt && Learns(a, id)
    requires Serves(s, a, id) && Edge(a, s.table[id], t.table[id])
    requires Truthful(states, k - 1, s.table[id]) && t.table[id].bounty == s.table[id].bounty
    ensures Truthful(states, k, t.table[id])
  {
    hide Apply;
    hide Possible;
    hide Sound;
    hide Was;
    hide Edge;
    hide Registered;
    var j, n := s.table[id], t.table[id];
    LearningEdge(a, id, j, n);
    if j.successes.Some? { WasLater(states, k, j.bounty, j.successes.value); }
    if j.phase.Reporting? || j.phase.Retired? { WasLater(states, k, j.bounty, j.phase.count.value); }
    if a == Record(id) {
      RecordRemembers(s, id);
      if n.phase.Recorded? { WasNow(states, k, j.bounty); }
    } else {
      BudgetKnown(s, id);
      WasNow(states, k - 1, j.bounty);
      WasLater(states, k, j.bounty, s.budgets[j.bounty].successes);
      if a == Report(id) { ReportTakes(s, id); } else { QueuedTakes(s, id); }
    }
  }

  lemma WasNow(states: seq<Service>, k: nat, bounty: Bounty)
    requires k < |states| && bounty in states[k].budgets
    ensures Was(states, k, bounty, states[k].budgets[bounty].successes)
  {
    assert CountAt(states, k, bounty, states[k].budgets[bounty].successes);
  }

  /**
    Theorem: the terminal frame of an attempt carries a count, and that was the count of its bounty at some time before.
  */
  lemma TerminalCounts(states: seq<Service>, actions: seq<Action>, config: Config, start: real, k: nat, id: JobId)
    returns (m: nat, count: Count)
    requires Run(states, actions, config, start) && k < |actions| && actions[k] == WriteTerminal(id, true)
    requires |states| == |actions| + 1 && id in states[k].table && states[k].table[id].attempt
    ensures states[k + 1].log.frames == states[k].log.frames + [Terminal(id, Some(count))]
    ensures m <= k && states[k].table[id].bounty in states[m].budgets &&
            states[m].budgets[states[k].table[id].bounty].successes == count
  {
    hide Run;
    hide Apply;
    hide Possible;
    StepOf(states, actions, config, start, k);
    AlwaysTruthful(states, actions, config, start, k, id);
    TerminalTold(states[k], id);
    count := states[k].table[id].phase.count.value;
    m :| 0 <= m <= k && CountAt(states, m, states[k].table[id].bounty, count);
  }

  lemma TerminalTold(s: Service, id: JobId)
    requires Possible(s, WriteTerminal(id, true))
    ensures id in s.table && s.table[id].phase.Retired?
    ensures Apply(s, WriteTerminal(id, true)).log.frames == s.log.frames + [Terminal(id, s.table[id].phase.count)]
  {
    hide Apply;
    hide Enabled;
    OnWriteTerminal(s, id, true);
  }
}
