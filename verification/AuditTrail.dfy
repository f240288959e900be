/** The audit log of a run tells its stored steps: which nodes, in which order, with which outcome. */
module AuditTrail {
  import opened Text
  import opened Values
  import opened Graphs
  import opened Engine
  import opened Backoff
  import opened Runs
  import opened Protocol
  import opened Tokens
  import opened Solo
  import opened Interleaving

  /** What the log and the steps both say of a step. */
  datatype Mark = Mark(nodeID: string, status: StepStatus)

  function Marks(steps: seq<Step>): seq<Mark> {
    seq(|steps|, i requires 0 <= i < |steps| => Mark(steps[i].nodeID, steps[i].status))
  }

  /** What one more event tells. A new attempt starts afresh; a resumed one goes on. */
  function TellOne(marks: seq<Mark>, resumed: bool, e: Event): seq<Mark> {
    match e
    case RunStartedEvent => if resumed then marks else []
    case StepCompletedEvent(id) => marks + [Mark(id, Completed)]
    case StepFailedEvent(id) => marks + [Mark(id, StepStatus.Failed)]
    case StepWaitingEvent(id) => marks + [Mark(id, WaitingApproval)]
    case ApprovalResolvedEvent(id) => ResolveLast(marks, id)
    case _ => marks
  }

  /** The steps as the log tells them. */
  function Logged(log: seq<Event>): seq<Mark> {
    if log == [] then []
    else
      var front := log[..|log| - 1];
      TellOne(Logged(front), PhaseOf(front).Resolved?, log[|log| - 1])
  }

  function ResolveLast(marks: seq<Mark>, id: string): seq<Mark> {
    if LastWaits(marks, id) then marks[..|marks| - 1] + [Mark(id, Completed)] else marks + [Mark(id, Completed)]
  }

  predicate LastWaits(marks: seq<Mark>, id: string) {
    marks != [] && marks[|marks| - 1] == Mark(id, WaitingApproval)
  }

  /** Every approval_resolved names the node the run was parked at. */
  ghost predicate ResolvesParked(log: seq<Event>) {
    forall i :: 0 <= i < |log| && log[i].ApprovalResolvedEvent? ==> LastWaits(Logged(log[..i]), log[i].nodeID)
  }

  /** The log tells these steps, and all its resolutions name parked nodes. */
  ghost predicate Tells(log: seq<Event>, steps: seq<Step>) {
    Logged(log) == Marks(steps) && ResolvesParked(log)
  }

  lemma LoggedSnoc(log: seq<Event>, e: Event)
    ensures Logged(log + [e]) == TellOne(Logged(log), PhaseOf(log).Resolved?, e)
    ensures ResolvesParked(log + [e]) <==>
              ResolvesParked(log) && (e.ApprovalResolvedEvent? ==> LastWaits(Logged(log), e.nodeID))
  {
    var all := log + [e];
    assert all[..|log|] == log && all[|log|] == e;
    assert forall i :: 0 <= i < |log| ==> all[..i] == log[..i] && all[i] == log[i];
    hide PhaseOf, LastWaits, TellOne;
  }

  lemma MarksSnoc(steps: seq<Step>, s: Step)
    ensures Marks(steps + [s]) == Marks(steps) + [Mark(s.nodeID, s.status)]
  {}

  /** The steps the run's log tells at present: those in the hands of its call, or the stored ones. */
  ghost predicate TellsAt(rec: Record, w: Where) {
    if !w.Busy? then Tells(rec.log, rec.steps)
    else
      match w.pc
      case Starting(mode, _, _, st) =>
        ResolvesParked(rec.log) && if mode.ByResume? then Logged(rec.log) == Marks(st.steps) else st.steps == []
      case Walking(_, _, _, st, _) => Tells(rec.log, st.steps)
      case Stopped(_, _, o) => Tells(rec.log, o.st.steps)
      case Rejecting(_, steps) => Tells(rec.log, steps)
      case _ => Tells(rec.log, rec.steps)
  }

  // Step by step

  lemma PlainEventTells(log: seq<Event>, e: Event, steps: seq<Step>)
    requires Tells(log, steps)
    requires e.RunQueuedEvent? || e.RunCompletedEvent? || e.RunFailedEvent? || e.RunWaitingEvent?
             || e.RetryScheduledEvent? || e.RunDeadLetteredEvent?
    ensures Tells(log + [e], steps)
  {
    LoggedSnoc(log, e);
    hide Logged, ResolvesParked;
  }

  lemma StartingTells(workflows: Workflows, rec: Record, pc: Pc, result: Result<Value, string>)
    requires RunFits(workflows, rec, With(0, pc)) && TellsAt(rec, Busy(pc)) && pc.Starting?
    ensures var e := LocalStep(workflows, rec, pc, result);
            TellsAt(e.rec, WhereTo(e.dest))
  {
    assert Marks([]) == [];
    hide Logged, ResolvesParked, RunFits, PhaseOf, Marks;
    StartingPhase(workflows, rec, pc);
    LoggedSnoc(rec.log, RunStartedEvent);
    assert LocalStep(workflows, rec, pc, result)
        == Effect(RecordEvent(rec, RunStartedEvent),
                  Stay(Walking(pc.mode, pc.run, pc.g, pc.st, Elements(pc.st.queue))));
    hide LocalStep;
  }

  lemma StartingPhase(workflows: Workflows, rec: Record, pc: Pc)
    requires RunFits(workflows, rec, With(0, pc)) && pc.Starting?
    ensures PhaseOf(rec.log).Resolved? <==> pc.mode.ByResume?
  {
    hide PhaseOf, Resolvable, Stored, AllCompleted;
  }

  function StepsOf(pc: Pc): seq<Step>
    requires pc.Walking? || pc.Stopped?
  {
    if pc.Walking? then pc.st.steps else pc.outcome.st.steps
  }

  /** An iteration of the loop adds one step, and records its event. */
  lemma WalkAddsStep(rec: Record, pc: Pc, result: Result<Value, string>) returns (s: Step)
    requires pc.Walking? && pc.st.queue != []
    ensures var e := WalkStep(rec, pc, result);
            && e.rec == RecordEvent(rec, EventOf(s))
            && e.dest.Stay? && (e.dest.pc.Walking? || e.dest.pc.Stopped?)
            && StepsOf(e.dest.pc) == pc.st.steps + [s]
  {
    hide Fresh, Next, Freeze, ApprovalRequest;
    var node := pc.g.Node(pc.st.queue[0]);
    var returned := if Executable(node.typ) then result else Err("node type is not supported by sync execution yet");
    var turn := Engine.TakeTurn(pc.g, pc.st, pc.queued, returned, []);
    s := if turn.Go? then CompletedStep(node, returned.value)
         else if turn.outcome.Broken? then FailedStep(node, returned.error) else WaitingStep(node);
  }

  lemma WalkingTells(workflows: Workflows, rec: Record, pc: Pc, result: Result<Value, string>)
    requires TellsAt(rec, Busy(pc)) && pc.Walking?
    ensures var e := LocalStep(workflows, rec, pc, result);
            TellsAt(e.rec, WhereTo(e.dest))
  {
    hide Tells, WalkStep, EventOf;
    if pc.st.queue != [] {
      var s := WalkAddsStep(rec, pc, result);
      EventTells(rec.log, EventOf(s), pc.st.steps, s);
    }
  }

  function EventOf(s: Step): Event {
    match s.status
    case Completed => StepCompletedEvent(s.nodeID)
    case Failed => StepFailedEvent(s.nodeID)
    case WaitingApproval => StepWaitingEvent(s.nodeID)
  }

  lemma EventTells(log: seq<Event>, e: Event, steps: seq<Step>, s: Step)
    requires Tells(log, steps)
    requires e == EventOf(s)
    ensures Tells(log + [e], steps + [s])
  {
    LoggedSnoc(log, e);
    MarksSnoc(steps, s);
    hide Logged, ResolvesParked, Marks;
  }

  lemma StoringTells(workflows: Workflows, rec: Record, pc: Pc, result: Result<Value, string>)
    requires TellsAt(rec, Busy(pc)) && (pc.Stopped? || pc.Rejecting?)
    ensures var e := LocalStep(workflows, rec, pc, result);
            TellsAt(e.rec, WhereTo(e.dest))
  {
    hide Tells, RunOutput;
  }

  lemma ResolvedMarks(steps: seq<Step>, decision: Value)
    requires steps != [] && steps[|steps| - 1].status == WaitingApproval
    ensures var id := steps[|steps| - 1].nodeID;
            LastWaits(Marks(steps), id) && Marks(ResolvedSteps(steps, decision)) == ResolveLast(Marks(steps), id)
  {}

  lemma ResolutionTells(log: seq<Event>, steps: seq<Step>, decision: Value)
    requires Tells(log, steps) && steps != [] && steps[|steps| - 1].status == WaitingApproval
    ensures Tells(log + [ApprovalResolvedEvent(steps[|steps| - 1].nodeID)], ResolvedSteps(steps, decision))
  {
    LoggedSnoc(log, ApprovalResolvedEvent(steps[|steps| - 1].nodeID));
    ResolvedMarks(steps, decision);
    hide Logged, ResolvesParked, Marks, LastWaits, ResolveLast, ResolvedSteps;
  }

  /** Resolving either starts the resumed pass or rejects, with the waiting step resolved. */
  lemma ResolutionSteps(rec: Record, pc: Pc)
    requires pc.Loaded? && pc.steps != [] && pc.steps[|pc.steps| - 1].nodeID == pc.pending.waitingNodeID
    ensures var (e, steps) := (ResolveApproval(rec, pc), ResolvedSteps(pc.steps, Decision(pc.approved, pc.comment)));
            && e.rec == RecordEvent(rec, ApprovalResolvedEvent(pc.pending.waitingNodeID))
            && e.dest.Stay?
            && ((e.dest.pc.Rejecting? && e.dest.pc.steps == steps)
                || (e.dest.pc.Starting? && e.dest.pc.mode.ByResume? && e.dest.pc.st.steps == steps))
  {
    hide Decision;
  }

  lemma LoadedTells(workflows: Workflows, rec: Record, pc: Pc, result: Result<Value, string>)
    requires RunFits(workflows, rec, With(0, pc)) && TellsAt(rec, Busy(pc)) && pc.Loaded?
    ensures var e := LocalStep(workflows, rec, pc, result);
            TellsAt(e.rec, WhereTo(e.dest))
  {
    hide *;
    LoadedWaits(workflows, rec, pc);
    LoadedResolves(workflows, rec, pc, result);
    var steps := ResolvedSteps(pc.steps, Decision(pc.approved, pc.comment));
    ResolutionSteps(rec, pc);
    ResolutionTells(rec.log, rec.steps, Decision(pc.approved, pc.comment));
    var e := ResolveApproval(rec, pc);
    RecordedLog(rec, ApprovalResolvedEvent(pc.pending.waitingNodeID));
    ResolvedTellsAt(e.rec, e.dest.pc, steps);
    StayIsBusy(e.dest);
  }

  lemma LoadedResolves(workflows: Workflows, rec: Record, pc: Pc, result: Result<Value, string>)
    requires TellsAt(rec, Busy(pc)) && pc.Loaded?
    ensures Tells(rec.log, rec.steps) && LocalStep(workflows, rec, pc, result) == ResolveApproval(rec, pc)
  {
    hide Tells, ResolveApproval;
  }

  lemma RecordedLog(rec: Record, e: Event)
    ensures RecordEvent(rec, e).log == rec.log + [e]
  {}

  lemma ResolvedTellsAt(rec: Record, pc: Pc, steps: seq<Step>)
    requires Tells(rec.log, steps)
    requires (pc.Rejecting? && pc.steps == steps) || (pc.Starting? && pc.mode.ByResume? && pc.st.steps == steps)
    ensures TellsAt(rec, Busy(pc))
  {}

  lemma RecordingTells(workflows: Workflows, rec: Record, pc: Pc, result: Result<Value, string>)
    requires TellsAt(rec, Busy(pc)) && (pc.Created? || pc.Written? || pc.Requeued? || pc.DeadLettered?)
    ensures var e := LocalStep(workflows, rec, pc, result);
            TellsAt(e.rec, WhereTo(e.dest))
  {
    var e := LocalStep(workflows, rec, pc, result);
    PlainEventTells(rec.log, e.rec.log[|rec.log|], rec.steps);
    hide Tells;
  }

  lemma QuietTells(workflows: Workflows, rec: Record, pc: Pc, result: Result<Value, string>)
    requires TellsAt(rec, Busy(pc)) && (pc.Announced? || pc.Holding? || pc.Checked? || pc.Returned? || pc.Scheduling?)
    ensures var e := LocalStep(workflows, rec, pc, result);
            TellsAt(e.rec, WhereTo(e.dest))
  {
    hide Logged, ResolvesParked, Marks, Resolve, TrimSpace, MergeInput, RetryOutput, DeadLetterOutput, RetryDelay;
  }

  lemma ActTells(workflows: Workflows, rec: Record, pc: Pc, result: Result<Value, string>)
    requires RunFits(workflows, rec, With(0, pc)) && TellsAt(rec, Busy(pc))
    ensures var e := LocalStep(workflows, rec, pc, result);
            TellsAt(e.rec, WhereTo(e.dest))
  {
    NeverUnresolvable(workflows, rec, pc);
    hide TellsAt, LocalStep, RunFits;
    match pc {
      case Starting(_, _, _, _) => StartingTells(workflows, rec, pc, result);
      case Walking(_, _, _, _, _) => WalkingTells(workflows, rec, pc, result);
      case Loaded(_, _, _, _, _, _) => LoadedTells(workflows, rec, pc, result);
      case Stopped(_, _, _) => StoringTells(workflows, rec, pc, result);
      case Rejecting(_, _) => StoringTells(workflows, rec, pc, result);
      case Created(_) => RecordingTells(workflows, rec, pc, result);
      case Written(_, _) => RecordingTells(workflows, rec, pc, result);
      case Requeued(_, _) => RecordingTells(workflows, rec, pc, result);
      case DeadLettered(_) => RecordingTells(workflows, rec, pc, result);
      case _ => QuietTells(workflows, rec, pc, result);
    }
  }

  lemma BornTells(workflows: Workflows, rec: Record, w: Where)
    requires Born(workflows, rec, w)
    ensures TellsAt(rec, w)
  {
    hide Resolve, TrimSpace;
    assert Logged([]) == [] == Marks([]);
  }

  lemma HandingTells(rules: Rules, workflows: Workflows, rec: Record, w: Where, doing: Doing)
    requires TellsAt(rec, w) && !w.Busy? && DoOne(rules, workflows, rec, w, doing).Some?
    ensures TellsAt(DoOne(rules, workflows, rec, w, doing).value.0, DoOne(rules, workflows, rec, w, doing).value.1)
  {
    hide Tells, Resolve, MergeInput, InputAllowed;
  }

  lemma DoOneTells(rules: Rules, workflows: Workflows, rec: Record, w: Where, doing: Doing)
    requires RunFits(workflows, rec, PlaceIn(w)) && TellsAt(rec, w) && DoOne(rules, workflows, rec, w, doing).Some?
    ensures var (rec', w') := DoOne(rules, workflows, rec, w, doing).value;
            TellsAt(rec', w')
  {
    hide TellsAt, RunFits, LocalStep, ResultAllowed, Resolves, LoadedFor;
    if w.Busy? {
      ActTells(workflows, rec, w.pc, doing.result);
    } else {
      HandingTells(rules, workflows, rec, w, doing);
    }
  }

  lemma {:induction false} DoAllTells(
    rules: Rules, workflows: Workflows, birth: Record, start: Where, doings: seq<Doing>)
    requires Born(workflows, birth, start) && DoAll(rules, workflows, birth, start, doings).Some?
    ensures var (rec, w) := DoAll(rules, workflows, birth, start, doings).value;
            TellsAt(rec, w)
  {
    if doings == [] {
      BornTells(workflows, birth, start);
    } else {
      hide *;
      var k := |doings| - 1;
      DoAllSnoc(rules, workflows, birth, start, doings);
      DoAllFits(rules, workflows, birth, start, doings[..k]);
      DoAllTells(rules, workflows, birth, start, doings[..k]);
      var (rec, w) := DoAll(rules, workflows, birth, start, doings[..k]).value;
      DoOneTells(rules, workflows, rec, w, doings[k]);
    }
  }

  /**
   * In every reachable state the audit log of a run that no call is working on tells its stored steps, in
   * order and with their outcomes, and every approval it records as resolved is the one the run was parked at.
   */
  lemma LogTellsSteps(s: System, r: string, httpToolOK: Fields -> bool)
    requires Reachable(s, httpToolOK) && r in s.db
    requires forall a :: a in s.agents ==> RunOf(s.agents[a]) != r
    ensures Logged(s.db[r].log) == Marks(s.db[r].steps)
    ensures ResolvesParked(s.db[r].log)
  {
    hide Reachable, Logged, Marks, ResolvesParked, Born, DoAll;
    ReachableIffByAnything(s, httpToolOK);
    var w, story := RunHasStory(ANYTHING, s, r, httpToolOK);
    DoAllTells(ANYTHING, s.workflows, story.birth, story.start, story.doings);
  }
}
