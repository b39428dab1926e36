/** The end of a run: when Close is over and nothing failed, every job has exactly one terminal frame. */
module ServiceEnding {
  import opened Outcomes
  import opened ServiceState
  import opened ServiceSteps
  import opened ServiceActions
  import opened ServiceShape
  import opened ServiceGraph
  import opened ServiceRecords
  import opened ServiceCounts
  import opened ServiceFrames

  ghost predicate Endings(s: Service) {
    (s.end.shutdown ==> s.end.closed) &&
    (forall id :: id in s.table && s.end.shutdown && s.table[id].phase.Queued? ==> id in s.end.closing) &&
    (forall id :: id in s.table && s.table[id].phase.Doomed? ==> s.end.failed) &&
    (forall id ::
       id in s.table && s.table[id].phase.Finished? && !Complete(s.table[id], id, FramesOf(s.log.frames, id)) ==>
         s.end.failed)
  }

  lemma CompleteAfterTerminal(s: Service, id: JobId, ok: bool)
    requires Records(s) && Stories(s) && Possible(s, WriteTerminal(id, ok))
    ensures var t := Apply(s, WriteTerminal(id, ok));
            id in t.table && (t.end.failed || Complete(t.table[id], id, FramesOf(t.log.frames, id)))
  {
    hide Apply;
    hide Enabled;
    hide FramesOf;
    OnWriteTerminal(s, id, ok);
    var j, tr := s.table[id], FramesOf(s.log.frames, id);
    assert Coherent(j) && Story(j, id, tr);
    if ok {
      FramesOfSnoc(s.log.frames, Terminal(id, j.phase.count), id);
      assert (tr + [Terminal(id, j.phase.count)])[..|tr|] == tr;
    }
  }

  lemma FatalFails(s: Service, id: JobId)
    requires Possible(s, Fatal(id))
    ensures Apply(s, Fatal(id)).end.failed
  {
  }

  /** A queued job that Close cancels is no longer queued. */
  lemma CancelledLeavesQueue(s: Service, id: JobId)
    requires Shape(s) && Possible(s, CancelQueued(id))
    ensures id in Apply(s, CancelQueued(id)).table && !Apply(s, CancelQueued(id)).table[id].phase.Queued?
  {
    hide Apply;
    hide Enabled;
    OnCancelQueued(s, id);
    Places(s, id);
    assert JobShape(s, id);
  }

  /** No job is queued once the service is closed. */
  lemma NoneQueuedWhenClosed(s: Service, a: Action, id: JobId)
    requires Possible(s, a) && s.end.closed
    ensures !Queues(a, id)
  {
  }

  /** What the end of a run asks of one job. */
  ghost predicate EndingOk(s: Service, id: JobId)
    requires id in s.table
  {
    (s.end.shutdown && s.table[id].phase.Queued? ==> id in s.end.closing) &&
    (s.table[id].phase.Doomed? ==> s.end.failed) &&
    (s.table[id].phase.Finished? && !Complete(s.table[id], id, FramesOf(s.log.frames, id)) ==> s.end.failed)
  }

  lemma StillEnding(s: Service, t: Service, a: Action, id: JobId)
    requires Shape(s) && Endings(s) && id in s.table && id in t.table && Still(s.table[id], t.table[id]) &&
             EndOnward(s, t, a)
    requires a.CancelQueued? && a.id == id ==> !t.table[id].phase.Queued?
    requires s.table[id].phase.Finished? ==> FramesOf(t.log.frames, id) == FramesOf(s.log.frames, id)
    ensures EndingOk(t, id)
  {
    hide FramesOf;
    Places(s, id);
    hide Shape;
  }

  lemma EdgeEnding(s: Service, t: Service, a: Action, id: JobId)
    requires Records(s) && Stories(s) && Endings(s) && id in s.table && id in t.table &&
             Edge(a, s.table[id], t.table[id]) && EndOnward(s, t, a)
    requires s.table[id].phase.Done? || s.table[id].phase.Doomed? ==>
      FramesOf(t.log.frames, id) == FramesOf(s.log.frames, id)
    requires a.Fatal? ==> t.end.failed
    requires a.WriteTerminal? ==> t.end.failed || Complete(t.table[id], id, FramesOf(t.log.frames, id))
    ensures EndingOk(t, id)
  {
    hide FramesOf;
    hide Edge;
    hide Rank;
    hide Coherent;
    assert Story(s.table[id], id, FramesOf(s.log.frames, id));
    EdgeMoves(a, s.table[id], t.table[id]);
  }

  /** A job that has just been queued. */
  lemma FreshEnding(s: Service, t: Service, a: Action, id: JobId)
    requires Endings(s) && id in t.table && t.table[id].phase.Queued? && Queues(a, id) && !s.end.closed &&
             EndOnward(s, t, a)
    ensures EndingOk(t, id)
  {
  }

  lemma EndingKept(s: Service, a: Action, id: JobId)
    requires Shape(s) && Records(s) && UsersExact(s) && Stories(s) && Endings(s) && Possible(s, a) &&
             id in Apply(s, a).table
    ensures EndingOk(Apply(s, a), id)
  {
    hide Apply;
    hide Enabled;
    hide Edge;
    hide Still;
    hide FramesOf;
    hide EndingOk;
    hide EndOnward;
    hide UsersExact;
    hide Records;
    hide Stories;
    var t := Apply(s, a);
    JobsFollowGraph(s, a);
    EndKept(s, a);
    if a.CancelQueued? && a.id == id { CancelledLeavesQueue(s, id); }
    if a.Fatal? { FatalFails(s, a.id); }
    if a.WriteTerminal? && a.id == id { CompleteAfterTerminal(s, id, a.ok); }
    if s.end.closed { NoneQueuedWhenClosed(s, a, id); }
    if id in s.table && (s.table[id].phase.Finished? || s.table[id].phase.Done? || s.table[id].phase.Doomed?) {
      StillFrames(s, a, id);
    }
    hide Shape;
    if id in s.table {
      assert Follows(s, t, a, id);
      if Still(s.table[id], t.table[id]) { StillEnding(s, t, a, id); } else { EdgeEnding(s, t, a, id); }
    } else {
      FreshEnding(s, t, a, id);
    }
  }

  /** Nothing but its terminal frame is written about a job that is finishing. */
  lemma StillFrames(s: Service, a: Action, id: JobId)
    requires Possible(s, a) && id in s.table
    requires s.table[id].phase.Finished? || s.table[id].phase.Done? || s.table[id].phase.Doomed?
    ensures FramesOf(Apply(s, a).log.frames, id) == FramesOf(s.log.frames, id)
  {
    hide Apply;
    hide Enabled;
    hide FramesOf;
    hide Written;
    Writes(s, a);
    WrittenAbout(s, a, id);
    if a.WriteStarted? { OnWriteStarted(s, a.id, a.ok); }
    if a.WriteCapture? { OnWriteCapture(s, a.id, a.ok); }
    assert FramesOf(s.log.frames, id) + [] == FramesOf(s.log.frames, id);
  }

  lemma EndingsKept(s: Service, a: Action)
    requires Shape(s) && Records(s) && UsersExact(s) && Stories(s) && Endings(s) && Possible(s, a)
    ensures Endings(Apply(s, a))
  {
    hide Apply;
    hide Enabled;
    hide Shape;
    hide Records;
    hide UsersExact;
    hide Stories;
    hide FramesOf;
    var t := Apply(s, a);
    EndKept(s, a);
    forall id | id in t.table ensures EndingOk(t, id) { EndingKept(s, a, id); }
  }

  /** Close is over: its list is empty, the threads are joined, and no canceller is still writing. */
  ghost predicate AtRest(s: Service) {
    s.end.shutdown && s.end.closing == {} && s.tls.busy == {} && s.dns.busy == {} &&
    forall id :: id in s.table ==> !s.table[id].phase.Retired?
  }

  /**
    Theorem: at the end of Close every job that was ever admitted has exactly one terminal frame, the last frame about
    it.
  */
  lemma EveryJobTold(s: Service, id: JobId)
    requires Shape(s) && Endings(s) && AtRest(s) && !s.end.failed && id in s.table
    ensures s.table[id].phase.Finished? && Complete(s.table[id], id, FramesOf(s.log.frames, id))
  {
    Places(s, id);
    assert JobShape(s, id);
  }

  /** Everything the controller may ever read about a job. */
  predicate WellTold(id: JobId, tr: seq<Frame>) {
    match |tr|
    case 0 => true
    case 1 => tr[0] == Started(id) || (tr[0].Terminal? && tr[0].id == id)
    case 2 => tr[0] == Started(id) && tr[1].Capture? && tr[1].id == id
    case 3 => tr[0] == Started(id) && tr[1].Capture? && tr[1].id == id && tr[2] == Terminal(id, Some(tr[1].count))
    case _ => false
  }

  /** A job has at most one frame of each kind, in this order, and its two counts agree. */
  lemma StoryOnce(j: Job, id: JobId, tr: seq<Frame>)
    requires Coherent(j) && Story(j, id, tr)
    ensures WellTold(id, tr)
  {
    if Complete(j, id, tr) {
      var n := |tr| - 1;
      assert tr == Told(j, id) + [tr[n]];
    }
  }
}
