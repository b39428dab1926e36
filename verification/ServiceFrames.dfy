/**
  What the controller reads about one job: nothing, or a started frame, or a
  started and a capture frame, and then at most one terminal frame, in which the
  count is that of the capture frame.
*/
module ServiceFrames {
  import opened ServiceState
  import opened ServiceSteps
  import opened ServiceActions
  import opened ServiceShape
  import opened ServiceGraph
  import opened ServiceRecords
  import opened ServiceCounts

  predicate About(f: Frame, id: JobId) {
    !f.Admission? && f.id == id
  }

  /** The frames about one job, in the order they were written. */
  function FramesOf(frames: seq<Frame>, id: JobId): seq<Frame> {
    if frames == [] then []
    else
      var last := frames[|frames| - 1];
      FramesOf(frames[..|frames| - 1], id) + if About(last, id) then [last] else []
  }

  lemma FramesOfSnoc(frames: seq<Frame>, f: Frame, id: JobId)
    ensures FramesOf(frames + [f], id) == FramesOf(frames, id) + if About(f, id) then [f] else []
  {
    assert (frames + [f])[..|frames|] == frames;
  }

  /** The frames of a job whose outcome has been counted, or that never started. */
  function Told(j: Job, id: JobId): seq<Frame> {
    if j.started && j.successes.Some? then [Started(id), Capture(id, j.successes.value)] else []
  }

  /** A whole story: what was told, and a terminal frame with the same count. */
  predicate Complete(j: Job, id: JobId, tr: seq<Frame>) {
    |tr| > 0 && tr[|tr| - 1].Terminal? && tr[|tr| - 1].id == id && tr[..|tr| - 1] == Told(j, id) &&
    (j.successes.Some? ==> tr[|tr| - 1].counted == j.successes)
  }

  predicate Cut(j: Job, id: JobId, tr: seq<Frame>) {
    tr == [] || tr == [Started(id)] || (j.successes.Some? && tr == [Started(id), Capture(id, j.successes.value)])
  }

  /** The frames written about a job, for each point that its thread can be at. */
  predicate Story(j: Job, id: JobId, tr: seq<Frame>) {
    match j.phase
    case Acked => tr == [Started(id)]
    case Connected => tr == [Started(id)]
    case Recorded(_) => tr == [Started(id)]
    case Ended(_, _) => tr == if j.started then [Started(id)] else []
    case Judging(_) => tr == Told(j, id) && (j.started ==> j.successes.Some?)
    case Reporting(_) => tr == Told(j, id) && (j.started ==> j.successes.Some?)
    case Retired(_) => tr == Told(j, id) && (j.started ==> j.successes.Some?)
    case Done => Complete(j, id, tr)
    case Crashed => Cut(j, id, tr)
    case Doomed => Cut(j, id, tr)
    case Finished => Complete(j, id, tr) || Cut(j, id, tr)
    case _ => tr == []
  }

  ghost predicate Stories(s: Service) {
    (forall id :: id in s.table ==> Story(s.table[id], id, FramesOf(s.log.frames, id))) &&
    (forall id :: id !in s.table ==> FramesOf(s.log.frames, id) == [])
  }

  /** The frame that an action writes. */
  ghost function Written(s: Service, a: Action): seq<Frame>
    requires Possible(s, a)
  {
    match a
    case WriteStarted(id, ok) => if ok then [Started(id)] else []
    case WriteCapture(id, ok) => if ok then [Capture(id, s.table[id].successes.value)] else []
    case WriteTerminal(id, ok) => if ok then [Terminal(id, s.table[id].phase.count)] else []
    case WriteAdmission(revision, ok) => if ok then [Admission(revision, s.door.admissions[revision].allowed)] else []
    case _ => []
  }

  predicate WriteAction(a: Action) {
    a.WriteAdmission? || a.WriteStarted? || a.WriteCapture? || a.WriteTerminal?
  }

  /** A write adds its frame and nothing else to the log. */
  lemma FrameWritten(s: Service, a: Action)
    requires Possible(s, a) && WriteAction(a)
    ensures Apply(s, a).log == s.log.(frames := s.log.frames + Written(s, a)) && Apply(s, a).door.next == s.door.next
  {
    hide Apply;
    hide Enabled;
    StaysWithin(s, a);
    match a
    case WriteAdmission(revision, ok) => OnWriteAdmission(s, revision, ok);
    case WriteStarted(id, ok) => OnWriteStarted(s, id, ok);
    case WriteCapture(id, ok) => OnWriteCapture(s, id, ok);
    case WriteTerminal(id, ok) => OnWriteTerminal(s, id, ok);
  }

  /** Entering the gate takes a ticket; a turn after the acknowledgement may add a permit. */
  lemma GateLogged(s: Service, a: Action)
    requires Possible(s, a) && (a.EnterGate? || a.GrantOrRefuse?)
    ensures Apply(s, a).log.frames == s.log.frames
    ensures Apply(s, a).log.arrivals == s.log.arrivals + if a.EnterGate? then 1 else 0
    ensures a.EnterGate? ==> Apply(s, a).log.permits == s.log.permits
  {
    hide Apply;
    hide Enabled;
    hide Refused;
    hide Release;
    hide DoEnterGate;
    match a
    case EnterGate(id) => OnEnterGate(s, id); EnterWrites(s, id);
    case GrantOrRefuse(i) => OnGrantOrRefuse(s, i);
  }

  lemma NothingWritten(s: Service, a: Action)
    requires Possible(s, a) && !WriteAction(a)
    ensures Written(s, a) == []
  {
    hide Enabled;
  }

  /** Each action writes at most one frame. */
  lemma Writes(s: Service, a: Action)
    requires Possible(s, a)
    ensures Apply(s, a).log.frames == s.log.frames + Written(s, a)
  {
    hide Apply;
    hide Possible;
    hide Written;
    if WriteAction(a) { FrameWritten(s, a); }
    else {
      NothingWritten(s, a);
      assert s.log.frames + [] == s.log.frames;
      if a.EnterGate? || a.GrantOrRefuse? { GateLogged(s, a); } else { StaysWithin(s, a); }
    }
  }

  lemma EnterWrites(s: Service, id: JobId)
    requires id in s.table
    ensures DoEnterGate(s, id).log == s.log.(arrivals := s.log.arrivals + 1)
  {
    hide Turn;
    TurnWrites(Arrived(s, id), |s.gate|);
  }

  lemma TurnWrites(s: Service, i: nat)
    requires i < |s.gate| && s.gate[i] in s.table
    ensures Turn(s, i).log == s.log
  {
    hide Refused;
  }

  /** The frame about the job that an edge writes. */
  function EdgeFrame(a: Action, j: Job, id: JobId): seq<Frame> {
    if a.WriteStarted? && a.ok then [Started(id)]
    else if a.WriteCapture? && a.ok && j.successes.Some? then [Capture(id, j.successes.value)]
    else if a.WriteTerminal? && a.ok && j.phase.Retired? then [Terminal(id, j.phase.count)]
    else []
  }

  lemma EarlyStory(a: Action, j: Job, k: Job, id: JobId, tr: seq<Frame>)
    requires Coherent(j) && Story(j, id, tr) && EarlyEdge(a, j, k)
    ensures Story(k, id, tr + EdgeFrame(a, j, id))
  {
  }

  lemma TurnStory(a: Action, j: Job, k: Job, id: JobId, tr: seq<Frame>)
    requires Coherent(j) && Story(j, id, tr) && GateEdge(a, j, k) && (a.EnterGate? || a.Wake?)
    ensures Story(k, id, tr + EdgeFrame(a, j, id))
  {
  }

  lemma GateStory(a: Action, j: Job, k: Job, id: JobId, tr: seq<Frame>)
    requires Coherent(j) && Story(j, id, tr) && GateEdge(a, j, k) && !a.EnterGate? && !a.Wake?
    ensures Story(k, id, tr + EdgeFrame(a, j, id))
  {
  }

  lemma LateStory(a: Action, j: Job, k: Job, id: JobId, tr: seq<Frame>)
    requires Coherent(j) && Story(j, id, tr) && LateEdge(a, j, k) && (a.Record? && j.started ==> k.phase.Recorded?)
    ensures Story(k, id, tr + EdgeFrame(a, j, id))
  {
  }

  lemma TerminalStory(a: Action, j: Job, k: Job, id: JobId, tr: seq<Frame>)
    requires Coherent(j) && Story(j, id, tr) && FinalEdge(a, j, k) && a.WriteTerminal?
    ensures Story(k, id, tr + EdgeFrame(a, j, id))
  {
    if a.ok {
      var f := [Terminal(id, j.phase.count)];
      assert (tr + f)[..|tr|] == tr;
      assert Complete(k, id, tr + f);
    }
  }

  lemma RetireStory(a: Action, j: Job, k: Job, id: JobId, tr: seq<Frame>)
    requires Coherent(j) && Story(j, id, tr) && FinalEdge(a, j, k) && (a.RetireJob? || a.Leave?)
    ensures Story(k, id, tr)
  {
  }

  lemma CrashStory(a: Action, j: Job, k: Job, id: JobId, tr: seq<Frame>)
    requires Coherent(j) && Story(j, id, tr) && FinalEdge(a, j, k) && (a.Crash? || a.Fatal?)
    ensures Story(k, id, tr)
  {
  }

  lemma FinalStory(a: Action, j: Job, k: Job, id: JobId, tr: seq<Frame>)
    requires Coherent(j) && Story(j, id, tr) && FinalEdge(a, j, k) && !a.WriteTerminal?
    ensures Story(k, id, tr + EdgeFrame(a, j, id))
  {
    hide Coherent;
    hide Story;
    assert tr + [] == tr;
    if a.RetireJob? || a.Leave? { RetireStory(a, j, k, id, tr); } else { CrashStory(a, j, k, id, tr); }
  }

  lemma EdgeStory(a: Action, j: Job, k: Job, id: JobId, tr: seq<Frame>)
    requires Coherent(j) && Story(j, id, tr) && Edge(a, j, k) && (a.Record? && j.started ==> k.phase.Recorded?)
    ensures Story(k, id, tr + EdgeFrame(a, j, id))
  {
    hide Coherent;
    hide Story;
    hide EdgeFrame;
    if EarlyEdge(a, j, k) { EarlyStory(a, j, k, id, tr); }
    else if GateEdge(a, j,
                     k) { if a.EnterGate? ||
                     a.Wake? { TurnStory(a, j, k, id, tr); } else { GateStory(a, j, k, id, tr); } }
    else if LateEdge(a, j, k) { LateStory(a, j, k, id, tr); }
    else if a.WriteTerminal? { TerminalStory(a, j, k, id, tr); }
    else { FinalStory(a, j, k, id, tr); }
  }

  lemma StillStory(j: Job, k: Job, id: JobId, tr: seq<Frame>)
    requires Still(j, k) && Story(j, id, tr)
    ensures Story(k, id, tr)
  {
  }

  lemma FreshStory(k: Job, id: JobId)
    requires k.phase.Queued? && Fresh(k)
    ensures Story(k, id, [])
  {
  }

  /** A started job is counted when its capture ends: its budget is resident. */
  lemma StartedIsRecorded(s: Service, id: JobId)
    requires Shape(s) && UsersExact(s) && Possible(s, Record(id))
    ensures id in s.table && id in Apply(s, Record(id)).table
    ensures s.table[id].started ==> Apply(s, Record(id)).table[id].phase.Recorded?
  {
    hide Apply;
    hide Enabled;
    OnRecord(s, id);
    Places(s, id);
  }

  /** The frame an action writes, seen from one job. */
  lemma WrittenAbout(s: Service, a: Action, id: JobId)
    requires Possible(s, a) && id in s.table
    ensures FramesOf(s.log.frames + Written(s, a), id) ==
      FramesOf(s.log.frames, id) + if Serves(s, a, id) then EdgeFrame(a, s.table[id], id) else []
  {
    hide FramesOf;
    var w, before := Written(s, a), FramesOf(s.log.frames, id);
    if w == [] {
      assert s.log.frames + w == s.log.frames && before + [] == before;
    } else {
      assert w == [w[0]];
      FramesOfSnoc(s.log.frames, w[0], id);
    }
  }

  lemma WrittenElsewhere(s: Service, a: Action, id: JobId)
    requires Possible(s, a) && id !in s.table
    ensures FramesOf(s.log.frames + Written(s, a), id) == FramesOf(s.log.frames, id)
  {
    hide FramesOf;
    var w := Written(s, a);
    if w == [] {
      assert s.log.frames + w == s.log.frames;
    } else {
      assert w == [w[0]];
      FramesOfSnoc(s.log.frames, w[0], id);
    }
  }

  /** Theorem: in every interleaving each job's frames tell the story of its phase. */
  lemma StoriesKept(s: Service, a: Action)
    requires Shape(s) && Records(s) && UsersExact(s) && Stories(s) && Possible(s, a)
    ensures Stories(Apply(s, a))
  {
    hide Apply;
    hide Enabled;
    hide Shape;
    hide Records;
    hide UsersExact;
    hide FramesOf;
    hide Written;
    hide Story;
    hide Follows;
    var t := Apply(s, a);
    JobsFollowGraph(s, a);
    Writes(s, a);
    forall id | id in s.table ensures id in t.table && Story(t.table[id], id, FramesOf(t.log.frames, id)) {
      StoryKept(s, a, id);
    }
    forall id | id !in s.table ensures FramesOf(t.log.frames, id) == [] {
      WrittenElsewhere(s, a, id);
    }
    forall id | id in t.table && id !in s.table ensures Story(t.table[id], id, FramesOf(t.log.frames, id)) {
      FreshStory(t.table[id], id);
    }
  }

  /** A job whose frame is written moves on. */
  lemma WritingMoves(s: Service, a: Action, id: JobId)
    requires Possible(s, a) && id in s.table && id in Apply(s, a).table && Serves(s, a, id) &&
             Still(s.table[id], Apply(s, a).table[id])
    ensures EdgeFrame(a, s.table[id], id) == []
  {
    hide Apply;
    hide Enabled;
    match a
    case WriteStarted(k, ok) => OnWriteStarted(s, k, ok);
    case WriteCapture(k, ok) => OnWriteCapture(s, k, ok);
    case WriteTerminal(k, ok) => OnWriteTerminal(s, k, ok);
    case _ =>
  }

  lemma StoryKept(s: Service, a: Action, id: JobId)
    requires Shape(s) && Records(s) && UsersExact(s) && Stories(s) && Possible(s, a) && id in s.table
    ensures id in Apply(s, a).table && Story(Apply(s, a).table[id], id, FramesOf(Apply(s, a).log.frames, id))
  {
    hide Apply;
    hide Enabled;
    hide Shape;
    hide UsersExact;
    hide Edge;
    hide Still;
    hide FramesOf;
    hide Story;
    hide Written;
    hide Coherent;
    hide EdgeFrame;
    var t := Apply(s, a);
    JobsFollowGraph(s, a);
    Writes(s, a);
    WrittenAbout(s, a, id);
    if a.Record? { StartedIsRecorded(s, a.id); }
    assert Follows(s, t, a, id);
    var j, k, tr := s.table[id], t.table[id], FramesOf(s.log.frames, id);
    if Serves(s, a, id) && Edge(a, j, k) {
      EdgeStory(a, j, k, id, tr);
    } else {
      StillStory(j, k, id, tr);
      if Serves(s, a, id) { WritingMoves(s, a, id); }
      assert tr + [] == tr;
    }
  }
}
