/** What the uninterrupted run would do is what every run does, in pieces, retried, and interleaved with others. */
module Courses {
  import opened Text
  import opened Values
  import opened Workflow
  import opened Graphs
  import opened Engine
  import opened Backoff
  import opened Once
  import opened Resume
  import opened BreadthFirst
  import opened Outputs
  import opened StepBodies
  import opened Resumed
  import opened Runs
  import opened Protocol
  import opened Tokens
  import opened Solo
  import opened Interleaving
  import opened Tidiness
  import opened Ledger

  /** The bodies of the run's nodes in its present attempt. */
  function BodyOf(bodies: Bodies, run: Run): Body {
    bodies(run.id, run.attempt)
  }

  /** What a resume was told. */
  datatype Verdict = Verdict(approved: bool, comment: string)

  function DecisionOf(v: Verdict): Value {
    Decision(v.approved, v.comment)
  }

  function Decisions(verdicts: seq<Verdict>): seq<Value> {
    seq(|verdicts|, i requires 0 <= i < |verdicts| => DecisionOf(verdicts[i]))
  }

  /** The last approval was refused. */
  predicate Refused(verdicts: seq<Verdict>) {
    verdicts != [] && !verdicts[|verdicts| - 1].approved
  }

  function Ruled(verdicts: seq<Verdict>, doing: Doing): seq<Verdict> {
    if doing.ResumeWith? then verdicts + [Verdict(doing.approved, doing.comment)] else verdicts
  }

  /** The verdicts on the run's approvals, in order. */
  function Verdicts(doings: seq<Doing>): seq<Verdict> {
    if doings == [] then [] else Ruled(Verdicts(doings[..|doings| - 1]), doings[|doings| - 1])
  }

  lemma DecisionsSnoc(verdicts: seq<Verdict>, v: Verdict)
    ensures Decisions(verdicts + [v]) == Decisions(verdicts) + [DecisionOf(v)]
  {
    hide DecisionOf;
  }

  /** The run's present attempt, uninterrupted and with these verdicts in hand, ends like this. */
  ghost predicate Course(bodies: Bodies, workflows: Workflows, run: Run, verdicts: seq<Verdict>, o: Outcome) {
    var resolved := Resolve(workflows, run.tenantID, run.workflowID);
    && resolved.Ok? && resolved.value.Valid()
    && var g := resolved.value;
       o == Walk(g, BodyOf(bodies, run), run.input, NewState(g.roots), Elements(g.roots), Decisions(verdicts))
  }

  /** The two take the same course: they differ in nothing that the loop or these bodies look at. */
  ghost predicate SameCourse(bodies: Bodies, run: Run, other: Run) {
    && run.id == other.id && run.tenantID == other.tenantID && run.workflowID == other.workflowID
    && run.attempt == other.attempt && (run.input == other.input || Blind(bodies))
  }

  lemma {:induction false} BlindWalk(
    g: Graph, body: Body, input: Fields, other: Fields, st: State, queued: set<string>, decisions: seq<Value>)
    requires g.Valid() && forall node, outputs :: body(node, input, outputs) == body(node, other, outputs)
    ensures Walk(g, body, input, st, queued, decisions) == Walk(g, body, other, st, queued, decisions)
    decreases |Unvisited(g, st)|, Backlog(st.queue, st.executed)
  {
    WalkUnfolds(g, body, input, st, queued, decisions);
    WalkUnfolds(g, body, other, st, queued, decisions);
    if st.queue != [] {
      assert HeadResult(g, body, input, st) == HeadResult(g, body, other, st);
      hide Engine.TakeTurn, Walk, HeadResult, Unvisited, Backlog;
      var turn := Engine.TakeTurn(g, st, queued, HeadResult(g, body, input, st), decisions);
      if turn.Go? {
        TurnDecreases(g, body, input, st, queued, decisions);
        BlindWalk(g, body, input, other, turn.st, turn.queued, turn.decisions);
      }
    }
  }

  lemma CourseOfSame(
    bodies: Bodies, workflows: Workflows, run: Run, other: Run, verdicts: seq<Verdict>, o: Outcome)
    requires Course(bodies, workflows, run, verdicts, o) && SameCourse(bodies, run, other)
    ensures Course(bodies, workflows, other, verdicts, o)
  {
    hide Walk, Resolve, Decisions;
    if run.input != other.input {
      var g := Resolve(workflows, run.tenantID, run.workflowID).value;
      BlindWalk(g, BodyOf(bodies, run), run.input, other.input, NewState(g.roots), Elements(g.roots),
                Decisions(verdicts));
    }
  }

  /** The log ends with a rejection: the run failed right after its approval was resolved. */
  predicate Rejected(log: seq<Event>) {
    |log| >= 2 && log[|log| - 2].ApprovalResolvedEvent? && log[|log| - 1].RunFailedEvent?
  }

  predicate NotBegun(run: Run) {
    run.status == RunQueued && run.attempt == 0
  }

  /** The record shows how an attempt ended: as it was stored, or marked for retry or as dead since it failed. */
  predicate Reports(rec: Record, o: Outcome) {
    if rec.run.status == RunQueued || rec.run.status == RunDeadLetter then
      && o.Broken? && rec.steps == o.st.steps && rec.run.error == o.error && rec.pending.None?
      && rec.run.output == (if rec.run.status == RunDeadLetter then DeadLetterOutput(rec.run)
                            else RetryOutput(rec.run, RetryDelay(BASE_BACKOFF, rec.run.attempt)))
    else Shows(rec, o)
  }

  /** The record shows where an attempt was parked when its approval was refused. */
  predicate ShowsRefusal(rec: Record, o: Outcome, decision: Value) {
    && o.Paused? && o.st.steps != [] && rec.steps == ResolvedSteps(o.st.steps, decision) && rec.pending.None?
    && rec.run.status == RunFailed && rec.run.error == "approval rejected"
    && rec.run.output == Object(map["failed_node" := Str(o.pending.waitingNodeID), "approval" := decision])
  }

  ghost predicate KeptBy(bodies: Bodies, workflows: Workflows, rec: Record, verdicts: seq<Verdict>, o: Outcome) {
    if Refused(verdicts) then
      && Course(bodies, workflows, rec.run, verdicts[..|verdicts| - 1], o)
      && ShowsRefusal(rec, o, DecisionOf(verdicts[|verdicts| - 1]))
    else Course(bodies, workflows, rec.run, verdicts, o) && Reports(rec, o)
  }

  /**
   * The stored record is what the uninterrupted run of its last attempt, with these verdicts, comes to;
   * it is a rejected one exactly when the last verdict was a refusal.
   */
  ghost predicate Kept(bodies: Bodies, workflows: Workflows, rec: Record, verdicts: seq<Verdict>) {
    && (Rejected(rec.log) <==> Refused(verdicts))
    && if NotBegun(rec.run) then verdicts == [] && rec == Record(rec.run, [], None, rec.log)
       else exists o :: KeptBy(bodies, workflows, rec, verdicts, o)
  }

  /** A call on behalf of a job. */
  predicate JobHeld(pc: Pc) {
    match pc
    case Starting(mode, _, _, _) => mode.ByJob?
    case Walking(mode, _, _, _, _) => mode.ByJob?
    case Stopped(mode, _, _) => mode.ByJob?
    case Written(mode, _) => mode.ByJob?
    case Loaded(_, _, _, _, _, _) => false
    case Rejecting(_, _) => false
    case _ => true
  }

  /** Nothing follows a refusal, and a run that has had a verdict is never run by a job again. */
  predicate Orderly(w: Where, verdicts: seq<Verdict>) {
    && (forall i :: 0 <= i < |verdicts| - 1 ==> verdicts[i].approved)
    && (w.Queued? || (w.Busy? && JobHeld(w.pc)) ==> verdicts == [])
  }

  ghost predicate OnCourse(bodies: Bodies, workflows: Workflows, rec: Record, w: Where, verdicts: seq<Verdict>) {
    if !w.Busy? then Kept(bodies, workflows, rec, verdicts)
    else
      match w.pc
      case Checked(_, run, g) => GraphIs(workflows, run, g) && g.Valid()
      case Starting(_, run, g, st) =>
        && !Refused(verdicts) && GraphIs(workflows, run, g) && g.Valid()
        && Course(bodies, workflows, run, verdicts, Continue(g, BodyOf(bodies, run), run.input, st))
      case Walking(_, run, g, st, queued) =>
        && !Refused(verdicts) && GraphIs(workflows, run, g) && g.Valid()
        && Course(bodies, workflows, run, verdicts, Walk(g, BodyOf(bodies, run), run.input, st, queued, []))
      case Stopped(_, run, o) => !Refused(verdicts) && Course(bodies, workflows, run, verdicts, o)
      case Rejecting(run, steps) => Refused(verdicts) && Rejects(bodies, workflows, rec, run, steps, verdicts)
      case Written(_, run) => Kept(bodies, workflows, RecordEvent(rec, EndEvent(run.status)), verdicts)
      case Loaded(run, _, _, approved, comment, g) =>
        && verdicts != [] && verdicts[|verdicts| - 1] == Verdict(approved, comment)
        && GraphIs(workflows, run, g) && g.Valid() && SameCourse(bodies, rec.run, run)
        && Kept(bodies, workflows, rec, verdicts[..|verdicts| - 1])
      case _ => Kept(bodies, workflows, rec, verdicts)
  }

  /** What a refusal is about to store. */
  ghost predicate Rejects(
    bodies: Bodies, workflows: Workflows, rec: Record, run: Run, steps: seq<Step>, verdicts: seq<Verdict>)
  {
    exists o :: KeptBy(bodies, workflows, CompleteRun(rec, run, steps), verdicts, o)
  }

  lemma KeptWithEvent(bodies: Bodies, workflows: Workflows, rec: Record, e: Event, verdicts: seq<Verdict>)
    requires Kept(bodies, workflows, rec, verdicts) && !Refused(verdicts) && !e.RunFailedEvent?
    ensures Kept(bodies, workflows, RecordEvent(rec, e), verdicts)
  {
    hide Course, Refused;
    if !NotBegun(rec.run) {
      var o :| KeptBy(bodies, workflows, rec, verdicts, o);
      assert KeptBy(bodies, workflows, RecordEvent(rec, e), verdicts, o);
    }
  }

  // Step by step

  lemma FreshStartOnCourse(bodies: Bodies, workflows: Workflows, run: Run, g: Graph)
    requires GraphIs(workflows, run, g) && g.Valid()
    ensures Course(bodies, workflows, run, [], Continue(g, BodyOf(bodies, run), run.input, NewState(g.roots)))
  {
    hide Walk, Resolve;
    assert Decisions([]) == [];
  }

  lemma CheckedOnCourse(bodies: Bodies, workflows: Workflows, rec: Record, pc: Pc, result: Result<Value, string>)
    requires OnCourse(bodies, workflows, rec, Busy(pc), []) && pc.Checked?
    ensures var e := LocalStep(workflows, rec, pc, result);
            OnCourse(bodies, workflows, e.rec, WhereTo(e.dest), [])
  {
    FreshStartOnCourse(bodies, workflows, pc.run, pc.g);
    hide Course, GraphIs, Continue;
  }

  lemma HoldingOnCourse(
    bodies: Bodies, workflows: Workflows, rec: Record, pc: Pc, result: Result<Value, string>,
    verdicts: seq<Verdict>)
    requires RunFits(workflows, rec, With(0, pc)) && OnCourse(bodies, workflows, rec, Busy(pc), verdicts) && pc.Holding?
    ensures var e := LocalStep(workflows, rec, pc, result);
            OnCourse(bodies, workflows, e.rec, WhereTo(e.dest), verdicts)
  {
    HeldNames(workflows, rec, pc);
    ResolvedValid(workflows, pc.job.tenantID, pc.job.workflowID);
    hide Kept, RunFits, Resolve, TrimSpace, MergeInput;
  }

  lemma StartingOnCourse(
    bodies: Bodies, workflows: Workflows, rec: Record, pc: Pc, result: Result<Value, string>, verdicts: seq<Verdict>)
    requires OnCourse(bodies, workflows, rec, Busy(pc), verdicts) && pc.Starting?
    ensures var e := LocalStep(workflows, rec, pc, result);
            OnCourse(bodies, workflows, e.rec, WhereTo(e.dest), verdicts)
  {
    hide Course, GraphIs, Walk, Refused;
  }

  lemma WalkingTurn(rec: Record, pc: Pc, result: Result<Value, string>, body: Body)
    requires pc.Walking? && pc.st.queue != []
    requires result == body(pc.g.Node(pc.st.queue[0]), pc.run.input, pc.st.stepOutputs)
    ensures var turn := Engine.TakeTurn(pc.g, pc.st, pc.queued, HeadResult(pc.g, body, pc.run.input, pc.st), []);
            WalkStep(rec, pc, result).dest
            == Stay(if turn.Stop? then Stopped(pc.mode, pc.run, turn.outcome)
                    else Walking(pc.mode, pc.run, pc.g, turn.st, turn.queued))
  {
    hide Engine.TakeTurn;
  }

  lemma NothingInHand(g: Graph, st: State, queued: set<string>, result: Result<Value, string>)
    requires st.queue != []
    ensures var turn := Engine.TakeTurn(g, st, queued, result, []);
            turn.Go? ==> turn.decisions == []
  {
    if Engine.TakeTurn(g, st, queued, result, []).Go? {
      NoDecisionsLeft(g, st, queued, result);
    }
    hide Engine.TakeTurn;
  }

  /** The walk that was ahead is the outcome reached, or is still ahead. */
  lemma TurnOnCourse(
    bodies: Bodies, workflows: Workflows, rec: Record, pc: Pc, turn: Engine.Turn, verdicts: seq<Verdict>)
    requires pc.Walking? && !Refused(verdicts) && GraphIs(workflows, pc.run, pc.g) && pc.g.Valid()
    requires Course(bodies, workflows, pc.run, verdicts,
                    if turn.Stop? then turn.outcome
                    else Walk(pc.g, BodyOf(bodies, pc.run), pc.run.input, turn.st, turn.queued, []))
    ensures OnCourse(bodies, workflows, rec,
                     Busy(if turn.Stop? then Stopped(pc.mode, pc.run, turn.outcome)
                          else Walking(pc.mode, pc.run, pc.g, turn.st, turn.queued)), verdicts)
  {
    hide Course, GraphIs, Walk, Refused;
  }

  lemma WalkingCourse(bodies: Bodies, workflows: Workflows, rec: Record, pc: Pc, verdicts: seq<Verdict>)
    requires OnCourse(bodies, workflows, rec, Busy(pc), verdicts) && pc.Walking?
    ensures !Refused(verdicts) && GraphIs(workflows, pc.run, pc.g) && pc.g.Valid()
    ensures Course(bodies, workflows, pc.run, verdicts,
                   Walk(pc.g, BodyOf(bodies, pc.run), pc.run.input, pc.st, pc.queued, []))
  {
    hide Course, GraphIs, Walk, Refused;
  }

  lemma WalkingOnCourse(
    rules: Rules, workflows: Workflows, rec: Record, pc: Pc, result: Result<Value, string>, verdicts: seq<Verdict>)
    requires rules.bodies.Some? && OnCourse(rules.bodies.value, workflows, rec, Busy(pc), verdicts) && pc.Walking?
    requires ResultAllowed(rules, pc, result)
    ensures var e := LocalStep(workflows, rec, pc, result);
            OnCourse(rules.bodies.value, workflows, e.rec, WhereTo(e.dest), verdicts)
  {
    hide OnCourse, Course, GraphIs, Walk, Refused, WalkStep, LocalStep, HeadResult, Engine.TakeTurn;
    var bodies := rules.bodies.value;
    var body := BodyOf(bodies, pc.run);
    WalkingCourse(bodies, workflows, rec, pc, verdicts);
    WalkingIsWalkStep(workflows, rec, pc, result);
    var e := LocalStep(workflows, rec, pc, result);
    if pc.st.queue == [] {
      WalkUnfolds(pc.g, body, pc.run.input, pc.st, pc.queued, []);
      TurnOnCourse(bodies, workflows, e.rec, pc, Engine.Stop(Finished(pc.st)), verdicts);
    } else {
      WalkingTurn(rec, pc, result, body);
      WalkUnfolds(pc.g, body, pc.run.input, pc.st, pc.queued, []);
      NothingInHand(pc.g, pc.st, pc.queued, HeadResult(pc.g, body, pc.run.input, pc.st));
      TurnOnCourse(bodies, workflows, e.rec, pc,
                   Engine.TakeTurn(pc.g, pc.st, pc.queued, HeadResult(pc.g, body, pc.run.input, pc.st), []), verdicts);
    }
  }

  lemma StoredShows(
    bodies: Bodies, workflows: Workflows, rec: Record, pc: Pc, result: Result<Value, string>)
    requires pc.Stopped?
    ensures var e := LocalStep(workflows, rec, pc, result);
            && Shows(e.rec, pc.outcome) && SameCourse(bodies, pc.run, e.rec.run) && e.rec.log == rec.log
            && e.dest.Stay? && e.dest.pc.Written? && e.dest.pc.run == e.rec.run
  {
    hide RunOutput;
  }

  lemma ShownIsKept(bodies: Bodies, workflows: Workflows, rec: Record, verdicts: seq<Verdict>, o: Outcome)
    requires Course(bodies, workflows, rec.run, verdicts, o) && Shows(rec, o)
    requires !Refused(verdicts) && !Rejected(rec.log)
    ensures Kept(bodies, workflows, rec, verdicts)
  {
    hide Course, Refused, Rejected;
    assert KeptBy(bodies, workflows, rec, verdicts, o);
  }

  lemma ShowsWithEvent(rec: Record, o: Outcome, e: Event)
    requires Shows(rec, o)
    ensures Shows(RecordEvent(rec, e), o) && RecordEvent(rec, e).run == rec.run
    ensures RecordEvent(rec, e).log == rec.log + [e]
  {
    hide RunOutput;
  }

  lemma ResolvedLast(log: seq<Event>)
    requires Legal(log)
    ensures PhaseOf(log).Resolved? <==> log != [] && log[|log| - 1].ApprovalResolvedEvent?
  {}

  lemma RejectedSnoc(log: seq<Event>, e: Event)
    ensures Rejected(log + [e]) <==> log != [] && log[|log| - 1].ApprovalResolvedEvent? && e.RunFailedEvent?
  {}

  /** A call that ran the loop is not about to store a rejection, one that rejects is. */
  lemma RejectedByPlace(workflows: Workflows, rec: Record, pc: Pc, e: Event)
    requires RunFits(workflows, rec, With(0, pc)) && (pc.Stopped? || pc.Rejecting?)
    ensures Rejected(rec.log + [e]) <==> pc.Rejecting? && e.RunFailedEvent?
  {
    hide *;
    ResolvedByPlace(workflows, rec, pc);
    ResolvedLast(rec.log);
    RejectedSnoc(rec.log, e);
  }

  lemma ResolvedByPlace(workflows: Workflows, rec: Record, pc: Pc)
    requires RunFits(workflows, rec, With(0, pc)) && (pc.Stopped? || pc.Rejecting?)
    ensures Legal(rec.log) && (PhaseOf(rec.log).Resolved? <==> pc.Rejecting?)
  {
    hide PhaseOf, Resolvable, AllCompleted, AllButLastCompleted, OutcomeFits, SameRun, Attempting;
  }

  lemma WrittenOnCourse(bodies: Bodies, workflows: Workflows, rec: Record, pc: Pc, verdicts: seq<Verdict>)
    requires pc.Written? && Kept(bodies, workflows, RecordEvent(rec, EndEvent(pc.run.status)), verdicts)
    ensures OnCourse(bodies, workflows, rec, Busy(pc), verdicts)
  {
    hide Kept;
  }

  lemma StoppedMeans(bodies: Bodies, workflows: Workflows, rec: Record, pc: Pc, verdicts: seq<Verdict>)
    requires OnCourse(bodies, workflows, rec, Busy(pc), verdicts) && pc.Stopped?
    ensures !Refused(verdicts) && Course(bodies, workflows, pc.run, verdicts, pc.outcome)
  {
    hide Course, Refused;
  }

  lemma StoppedOnCourse(
    bodies: Bodies, workflows: Workflows, rec: Record, pc: Pc, result: Result<Value, string>, verdicts: seq<Verdict>)
    requires RunFits(workflows, rec, With(0, pc)) && OnCourse(bodies, workflows, rec, Busy(pc), verdicts) && pc.Stopped?
    ensures var e := LocalStep(workflows, rec, pc, result);
            OnCourse(bodies, workflows, e.rec, WhereTo(e.dest), verdicts)
  {
    hide *;
    var e := LocalStep(workflows, rec, pc, result);
    StoppedMeans(bodies, workflows, rec, pc, verdicts);
    StoredShows(bodies, workflows, rec, pc, result);
    var event := EndEvent(e.rec.run.status);
    var told := RecordEvent(e.rec, event);
    ShowsWithEvent(e.rec, pc.outcome, event);
    RejectedByPlace(workflows, rec, pc, event);
    CourseOfSame(bodies, workflows, pc.run, e.rec.run, verdicts, pc.outcome);
    ShownIsKept(bodies, workflows, told, verdicts, pc.outcome);
    WrittenOnCourse(bodies, workflows, e.rec, e.dest.pc, verdicts);
    StayIsBusy(e.dest);
  }

  lemma ResumedCourse(
    bodies: Bodies, workflows: Workflows, run: Run, g: Graph, o: Outcome, verdicts: seq<Verdict>, v: Verdict,
    httpToolOK: Fields -> bool)
    requires AllAccepted(workflows, httpToolOK)
    requires GraphIs(workflows, run, g) && g.Valid() && Course(bodies, workflows, run, verdicts, o) && o.Paused?
    ensures o.st.steps != []
    ensures Course(bodies, workflows, run, verdicts + [v],
                   Continue(g, BodyOf(bodies, run), run.input, Thaw(o.st.steps, o.pending, DecisionOf(v))))
  {
    hide Walk, Resolve, Thaw, AllAccepted, Tidy, NoSelfApproval, Continue, Decisions, DecisionOf;
    ResolvedPromised(workflows, run, g, httpToolOK);
    WalkResumes(g, BodyOf(bodies, run), run.input, NewState(g.roots), Elements(g.roots), Decisions(verdicts),
                DecisionOf(v));
    DecisionsSnoc(verdicts, v);
  }

  lemma ParkedCourse(bodies: Bodies, workflows: Workflows, rec: Record, verdicts: seq<Verdict>) returns (o: Outcome)
    requires Kept(bodies, workflows, rec, verdicts) && rec.run.status == RunWaitingApproval
    ensures !Refused(verdicts) && Course(bodies, workflows, rec.run, verdicts, o) && o.Paused?
    ensures rec.steps == o.st.steps && rec.pending == Some(o.pending)
  {
    hide Course, Refused;
    o :| KeptBy(bodies, workflows, rec, verdicts, o);
  }

  lemma LoadedCourse(bodies: Bodies, workflows: Workflows, rec: Record, pc: Pc, verdicts: seq<Verdict>)
    requires OnCourse(bodies, workflows, rec, Busy(pc), verdicts) && pc.Loaded?
    ensures verdicts != [] && verdicts == verdicts[..|verdicts| - 1] + [Verdict(pc.approved, pc.comment)]
    ensures Refused(verdicts) <==> !pc.approved
    ensures GraphIs(workflows, pc.run, pc.g) && pc.g.Valid() && SameCourse(bodies, rec.run, pc.run)
    ensures Kept(bodies, workflows, rec, verdicts[..|verdicts| - 1])
  {
    hide Kept, GraphIs;
  }

  /** Resolving rejects the run, or starts it again from the thawed state. */
  lemma ResolutionOf(
    bodies: Bodies, workflows: Workflows, rec: Record, pc: Pc, result: Result<Value, string>)
    requires pc.Loaded? && pc.steps != [] && pc.steps[|pc.steps| - 1].nodeID == pc.pending.waitingNodeID
    ensures var (e, decision) := (LocalStep(workflows, rec, pc, result), DecisionOf(Verdict(pc.approved, pc.comment)));
            && e.dest.Stay? && SameCourse(bodies, pc.run, e.dest.pc.run)
            && (if pc.approved then
                  e.dest.pc.Starting? && e.dest.pc.g == pc.g && e.dest.pc.st == Thaw(pc.steps, pc.pending, decision)
                else e.dest.pc.Rejecting? && e.dest.pc.steps == ResolvedSteps(pc.steps, decision)
                     && e.dest.pc.run.status == RunFailed && e.dest.pc.run.error == "approval rejected"
                     && e.dest.pc.run.output
                        == Object(map["failed_node" := Str(pc.pending.waitingNodeID), "approval" := decision]))
  {
    hide Decision, Thaw;
  }

  lemma LoadedOnCourse(
    bodies: Bodies, workflows: Workflows, rec: Record, pc: Pc, result: Result<Value, string>, verdicts: seq<Verdict>,
    httpToolOK: Fields -> bool)
    requires AllAccepted(workflows, httpToolOK)
    requires RunFits(workflows, rec, With(0, pc)) && OnCourse(bodies, workflows, rec, Busy(pc), verdicts) && pc.Loaded?
    ensures var e := LocalStep(workflows, rec, pc, result);
            OnCourse(bodies, workflows, e.rec, WhereTo(e.dest), verdicts)
  {
    hide *;
    LoadedCourse(bodies, workflows, rec, pc, verdicts);
    var front, v := verdicts[..|verdicts| - 1], Verdict(pc.approved, pc.comment);
    LoadedWaits(workflows, rec, pc);
    ResolutionOf(bodies, workflows, rec, pc, result);
    var e := LocalStep(workflows, rec, pc, result);
    StayIsBusy(e.dest);
    var o := ParkedCourse(bodies, workflows, rec, front);
    if pc.approved {
      CourseOfSame(bodies, workflows, rec.run, pc.run, front, o);
      SameIsSame(bodies, rec.run, pc.run, e.dest.pc.run);
      CourseOfSame(bodies, workflows, rec.run, e.dest.pc.run, front, o);
      SameGraph(workflows, pc.run, e.dest.pc.run, pc.g);
      ResumedCourse(bodies, workflows, e.dest.pc.run, pc.g, o, front, v, httpToolOK);
      StartsOnCourse(bodies, workflows, e.rec, e.dest.pc, verdicts);
    } else {
      SameIsSame(bodies, rec.run, pc.run, e.dest.pc.run);
      CourseOfSame(bodies, workflows, rec.run, e.dest.pc.run, front, o);
      RejectsOnCourse(bodies, workflows, e.rec, e.dest.pc, verdicts, v, o);
    }
  }

  lemma SameIsSame(bodies: Bodies, a: Run, b: Run, c: Run)
    requires SameCourse(bodies, a, b) && SameCourse(bodies, b, c)
    ensures SameCourse(bodies, a, c) && b.tenantID == c.tenantID && b.workflowID == c.workflowID
  {}

  lemma StartsOnCourse(bodies: Bodies, workflows: Workflows, rec: Record, pc: Pc, verdicts: seq<Verdict>)
    requires pc.Starting? && !Refused(verdicts) && GraphIs(workflows, pc.run, pc.g) && pc.g.Valid()
    requires Course(bodies, workflows, pc.run, verdicts, Continue(pc.g, BodyOf(bodies, pc.run), pc.run.input, pc.st))
    ensures OnCourse(bodies, workflows, rec, Busy(pc), verdicts)
  {
    hide Course, GraphIs, Continue, Refused;
  }

  lemma RejectsOnCourse(
    bodies: Bodies, workflows: Workflows, rec: Record, pc: Pc, verdicts: seq<Verdict>, v: Verdict, o: Outcome)
    requires pc.Rejecting? && verdicts != [] && verdicts == verdicts[..|verdicts| - 1] + [v] && Refused(verdicts)
    requires Course(bodies, workflows, pc.run, verdicts[..|verdicts| - 1], o) && o.Paused? && o.st.steps != []
    requires pc.steps == ResolvedSteps(o.st.steps, DecisionOf(v))
    requires pc.run.status == RunFailed && pc.run.error == "approval rejected"
    requires pc.run.output
             == Object(map["failed_node" := Str(o.pending.waitingNodeID), "approval" := DecisionOf(v)])
    ensures OnCourse(bodies, workflows, rec, Busy(pc), verdicts)
  {
    hide Course, ResolvedSteps, DecisionOf;
    assert verdicts[|verdicts| - 1] == v;
    assert KeptBy(bodies, workflows, CompleteRun(rec, pc.run, pc.steps), verdicts, o);
  }

  lemma RejectingMeans(bodies: Bodies, workflows: Workflows, rec: Record, pc: Pc, verdicts: seq<Verdict>)
    requires OnCourse(bodies, workflows, rec, Busy(pc), verdicts) && pc.Rejecting?
    ensures Refused(verdicts) && Rejects(bodies, workflows, rec, pc.run, pc.steps, verdicts)
  {
    hide Rejects, Refused;
  }

  lemma RejectingStores(workflows: Workflows, rec: Record, pc: Pc, result: Result<Value, string>)
    requires pc.Rejecting?
    ensures LocalStep(workflows, rec, pc, result)
         == Effect(CompleteRun(rec, pc.run, pc.steps), Stay(Written(ByResume, pc.run)))
  {}

  lemma RejectedIsKept(
    bodies: Bodies, workflows: Workflows, rec: Record, run: Run, steps: seq<Step>, verdicts: seq<Verdict>)
    requires Refused(verdicts) && Rejects(bodies, workflows, rec, run, steps, verdicts) && run.status == RunFailed
    requires Rejected(rec.log + [RunFailedEvent])
    ensures Kept(bodies, workflows, RecordEvent(CompleteRun(rec, run, steps), EndEvent(run.status)), verdicts)
  {
    hide Course, Refused, Rejected;
    var o :| KeptBy(bodies, workflows, CompleteRun(rec, run, steps), verdicts, o);
    assert KeptBy(bodies, workflows, RecordEvent(CompleteRun(rec, run, steps), RunFailedEvent), verdicts, o);
  }

  lemma RejectingOnCourse(
    bodies: Bodies, workflows: Workflows, rec: Record, pc: Pc, result: Result<Value, string>, verdicts: seq<Verdict>)
    requires RunFits(workflows, rec, With(0, pc)) && OnCourse(bodies, workflows, rec, Busy(pc), verdicts)
    requires pc.Rejecting?
    ensures var e := LocalStep(workflows, rec, pc, result);
            OnCourse(bodies, workflows, e.rec, WhereTo(e.dest), verdicts)
  {
    hide *;
    RejectingFailed(workflows, rec, pc);
    RejectedByPlace(workflows, rec, pc, RunFailedEvent);
    RejectingMeans(bodies, workflows, rec, pc, verdicts);
    RejectingStores(workflows, rec, pc, result);
    RejectedIsKept(bodies, workflows, rec, pc.run, pc.steps, verdicts);
    var e := LocalStep(workflows, rec, pc, result);
    WrittenOnCourse(bodies, workflows, e.rec, e.dest.pc, verdicts);
    StayIsBusy(e.dest);
  }

  lemma RejectingFailed(workflows: Workflows, rec: Record, pc: Pc)
    requires RunFits(workflows, rec, With(0, pc)) && pc.Rejecting?
    ensures pc.run.status == RunFailed
  {
    hide PhaseOf, RecordFits;
  }

  lemma EndedOnCourse(
    bodies: Bodies, workflows: Workflows, rec: Record, pc: Pc, result: Result<Value, string>, verdicts: seq<Verdict>)
    requires OnCourse(bodies, workflows, rec, Busy(pc), verdicts) && pc.Written?
    ensures var e := LocalStep(workflows, rec, pc, result);
            OnCourse(bodies, workflows, e.rec, WhereTo(e.dest), verdicts)
  {
    hide Kept, EndEvent;
  }

  lemma RecordingOnCourse(bodies: Bodies, workflows: Workflows, rec: Record, pc: Pc, result: Result<Value, string>)
    requires OnCourse(bodies, workflows, rec, Busy(pc), []) && (pc.Created? || pc.Requeued? || pc.DeadLettered?)
    ensures var e := LocalStep(workflows, rec, pc, result);
            OnCourse(bodies, workflows, e.rec, WhereTo(e.dest), [])
  {
    var e := LocalStep(workflows, rec, pc, result);
    hide Kept;
    KeptWithEvent(bodies, workflows, rec, e.rec.log[|rec.log|], []);
  }

  /** A worker drops its run, or marks it for retry or as dead. */
  lemma RetryOrBury(workflows: Workflows, rec: Record, pc: Pc, result: Result<Value, string>)
    requires pc.Returned? && rec.run == pc.run
    ensures var e := LocalStep(workflows, rec, pc, result);
            || e == Effect(rec, Leave)
            || (&& e.rec == UpdateRun(rec, e.rec.run) && rec.run.status == RunFailed
                && e.rec.run == rec.run.(status := e.rec.run.status, output := e.rec.run.output)
                && ((e.rec.run.status == RunDeadLetter && e.rec.run.output == DeadLetterOutput(rec.run))
                    || (e.rec.run.status == RunQueued
                        && e.rec.run.output == RetryOutput(rec.run, RetryDelay(BASE_BACKOFF, rec.run.attempt))))
                && e.dest.Stay? && (e.dest.pc.Requeued? || e.dest.pc.DeadLettered?))
  {
    hide RetryOutput, DeadLetterOutput, RetryDelay;
  }

  lemma OutputsOfSame(run: Run, other: Run, delay: int)
    requires run.attempt == other.attempt && run.maxAttempts == other.maxAttempts
    ensures RetryOutput(run, delay) == RetryOutput(other, delay) && DeadLetterOutput(run) == DeadLetterOutput(other)
  {}

  lemma DecidedIsKept(bodies: Bodies, workflows: Workflows, rec: Record, run: Run)
    requires Kept(bodies, workflows, rec, []) && rec.run.status == RunFailed && run.attempt >= 1
    requires run == rec.run.(status := run.status, output := run.output)
    requires || (run.status == RunDeadLetter && run.output == DeadLetterOutput(rec.run))
             || (run.status == RunQueued
                && run.output == RetryOutput(rec.run, RetryDelay(BASE_BACKOFF, rec.run.attempt)))
    ensures Kept(bodies, workflows, UpdateRun(rec, run), [])
  {
    hide Course, Rejected, RetryOutput, DeadLetterOutput, RetryDelay;
    var o :| KeptBy(bodies, workflows, rec, [], o);
    CourseOfSame(bodies, workflows, rec.run, run, [], o);
    OutputsOfSame(run, rec.run, RetryDelay(BASE_BACKOFF, run.attempt));
    assert KeptBy(bodies, workflows, UpdateRun(rec, run), [], o);
  }

  lemma KeptOnCourse(bodies: Bodies, workflows: Workflows, rec: Record, w: Where, verdicts: seq<Verdict>)
    requires Kept(bodies, workflows, rec, verdicts) && (!w.Busy? || w.pc.Requeued? || w.pc.DeadLettered?)
    ensures OnCourse(bodies, workflows, rec, w, verdicts)
  {
    hide Kept;
  }

  lemma ReturnedMeans(bodies: Bodies, workflows: Workflows, rec: Record, pc: Pc, verdicts: seq<Verdict>)
    requires OnCourse(bodies, workflows, rec, Busy(pc), verdicts) && pc.Returned?
    ensures Kept(bodies, workflows, rec, verdicts)
  {
    hide Kept;
  }

  lemma DecidingOnCourse(bodies: Bodies, workflows: Workflows, rec: Record, pc: Pc, result: Result<Value, string>)
    requires RunFits(workflows, rec, With(0, pc)) && OnCourse(bodies, workflows, rec, Busy(pc), []) && pc.Returned?
    ensures var e := LocalStep(workflows, rec, pc, result);
            OnCourse(bodies, workflows, e.rec, WhereTo(e.dest), [])
  {
    hide OnCourse, Kept, RunFits, LocalStep, UpdateRun, RetryOutput, DeadLetterOutput, RetryDelay;
    ReturnedIsStored(workflows, rec, pc);
    ReturnedMeans(bodies, workflows, rec, pc, []);
    RetryOrBury(workflows, rec, pc, result);
    var e := LocalStep(workflows, rec, pc, result);
    if e != Effect(rec, Leave) {
      DecidedIsKept(bodies, workflows, rec, e.rec.run);
    }
    KeptOnCourse(bodies, workflows, e.rec, WhereTo(e.dest), []);
  }

  lemma QuietOnCourse(
    bodies: Bodies, workflows: Workflows, rec: Record, pc: Pc, result: Result<Value, string>, verdicts: seq<Verdict>)
    requires OnCourse(bodies, workflows, rec, Busy(pc), verdicts) && (pc.Announced? || pc.Scheduling?)
    ensures var e := LocalStep(workflows, rec, pc, result);
            OnCourse(bodies, workflows, e.rec, WhereTo(e.dest), verdicts)
  {
    hide Kept;
  }

  lemma JobsUndecided(pc: Pc, verdicts: seq<Verdict>)
    requires Orderly(Busy(pc), verdicts) && JobHeld(pc)
    ensures verdicts == []
  {}

  lemma ActOnCourse(
    rules: Rules, workflows: Workflows, rec: Record, pc: Pc, result: Result<Value, string>, verdicts: seq<Verdict>,
    httpToolOK: Fields -> bool)
    requires AllAccepted(workflows, httpToolOK)
    requires RunFits(workflows, rec, With(0, pc)) && rules.bodies.Some? && ResultAllowed(rules, pc, result)
    requires OnCourse(rules.bodies.value, workflows, rec, Busy(pc), verdicts) && Orderly(Busy(pc), verdicts)
    ensures var e := LocalStep(workflows, rec, pc, result);
            OnCourse(rules.bodies.value, workflows, e.rec, WhereTo(e.dest), verdicts)
  {
    hide OnCourse, LocalStep, RunFits, ResultAllowed, AllAccepted, Orderly;
    var bodies := rules.bodies.value;
    NeverUnresolvable(workflows, rec, pc);
    if JobHeld(pc) {
      JobsUndecided(pc, verdicts);
    }
    match pc {
      case Holding(_) => HoldingOnCourse(bodies, workflows, rec, pc, result, verdicts);
      case Checked(_, _, _) => CheckedOnCourse(bodies, workflows, rec, pc, result);
      case Starting(_, _, _, _) => StartingOnCourse(bodies, workflows, rec, pc, result, verdicts);
      case Walking(_, _, _, _, _) => WalkingOnCourse(rules, workflows, rec, pc, result, verdicts);
      case Stopped(_, _, _) => StoppedOnCourse(bodies, workflows, rec, pc, result, verdicts);
      case Loaded(_, _, _, _, _, _) => LoadedOnCourse(bodies, workflows, rec, pc, result, verdicts, httpToolOK);
      case Rejecting(_, _) => RejectingOnCourse(bodies, workflows, rec, pc, result, verdicts);
      case Written(_, _) => EndedOnCourse(bodies, workflows, rec, pc, result, verdicts);
      case Returned(_, _) => DecidingOnCourse(bodies, workflows, rec, pc, result);
      case Announced(_) => QuietOnCourse(bodies, workflows, rec, pc, result, verdicts);
      case Scheduling(_, _) => QuietOnCourse(bodies, workflows, rec, pc, result, verdicts);
      case _ => RecordingOnCourse(bodies, workflows, rec, pc, result);
    }
  }

  lemma ActStaysOrderly(
    workflows: Workflows, rec: Record, pc: Pc, result: Result<Value, string>, verdicts: seq<Verdict>)
    requires Orderly(Busy(pc), verdicts)
    ensures Orderly(WhereTo(LocalStep(workflows, rec, pc, result).dest), verdicts)
  {
    hide Resolve, TrimSpace, MergeInput, Engine.TakeTurn, Thaw, RunOutput;
  }

  lemma BornQueued(bodies: Bodies, workflows: Workflows, rec: Record, w: Where)
    requires Born(workflows, rec, w) && rec.run.trigger == Async
    ensures OnCourse(bodies, workflows, rec, w, []) && Orderly(w, [])
  {
    hide Resolve, TrimSpace, Course;
  }

  lemma BornRunning(workflows: Workflows, rec: Record, w: Where)
    requires Born(workflows, rec, w) && rec.run.trigger != Async
    ensures w.Busy? && w.pc.Starting? && GraphIs(workflows, w.pc.run, w.pc.g) && w.pc.st == NewState(w.pc.g.roots)
    ensures Orderly(w, []) && w.pc.run == rec.run
  {
    hide Resolve, TrimSpace;
  }

  lemma BornOnCourse(bodies: Bodies, workflows: Workflows, rec: Record, w: Where)
    requires Born(workflows, rec, w)
    ensures OnCourse(bodies, workflows, rec, w, []) && Orderly(w, [])
  {
    assert !Refused([]);
    hide *;
    if rec.run.trigger == Async {
      BornQueued(bodies, workflows, rec, w);
    } else {
      BornRunning(workflows, rec, w);
      GraphIsValid(workflows, rec.run, w.pc.g);
      FreshStartOnCourse(bodies, workflows, rec.run, w.pc.g);
      StartsOnCourse(bodies, workflows, rec, w.pc, []);
    }
  }

  /** Only a waiting run can be resumed, and a refused one is not waiting. */
  lemma WaitingNotRefused(bodies: Bodies, workflows: Workflows, rec: Record, verdicts: seq<Verdict>)
    requires Kept(bodies, workflows, rec, verdicts) && rec.pending.Some?
    ensures !Refused(verdicts)
  {
    hide Course;
  }

  lemma LoadingOnCourse(
    bodies: Bodies, workflows: Workflows, rec: Record, verdicts: seq<Verdict>, approved: bool, comment: string,
    input: Fields)
    requires Kept(bodies, workflows, rec, verdicts) && LoadedFor(workflows, rec, approved, comment, input).Some?
    requires input == map[] || Blind(bodies)
    ensures rec.pending.Some?
    ensures var pc := LoadedFor(workflows, rec, approved, comment, input).value;
            pc.Loaded? && OnCourse(bodies, workflows, rec, Busy(pc), verdicts + [Verdict(approved, comment)])
  {
    hide Kept, Resolve, MergeInput, Blind;
    assert (verdicts + [Verdict(approved, comment)])[..|verdicts|] == verdicts;
    ResolvedValid(workflows, rec.run.tenantID, rec.run.workflowID);
    NothingMerges(rec.run.input);
  }

  lemma ResumedOrderly(verdicts: seq<Verdict>, v: Verdict, pc: Pc)
    requires Orderly(Resting, verdicts) && !Refused(verdicts) && pc.Loaded?
    ensures Orderly(Busy(pc), verdicts + [v])
  {}

  /** What a doing is to a run that no call is working on. */
  lemma Handed(rules: Rules, workflows: Workflows, rec: Record, w: Where, doing: Doing)
    requires rules.bodies.Some? && !w.Busy? && DoOne(rules, workflows, rec, w, doing).Some?
    ensures if w.Queued? then doing.Take? && DoOne(rules, workflows, rec, w, doing) == Some((rec, Busy(Holding(w.job))))
            else && doing.ResumeWith? && LoadedFor(workflows, rec, doing.approved, doing.comment, doing.input).Some?
                 && (doing.input == map[] || Blind(rules.bodies.value))
                 && DoOne(rules, workflows, rec, w, doing)
                    == Some((rec, Busy(LoadedFor(workflows, rec, doing.approved, doing.comment, doing.input).value)))
  {
    hide LoadedFor, Blind;
  }

  lemma TakingOnCourse(bodies: Bodies, workflows: Workflows, rec: Record, job: Job, verdicts: seq<Verdict>)
    requires OnCourse(bodies, workflows, rec, Queued(job), verdicts) && Orderly(Queued(job), verdicts)
    ensures OnCourse(bodies, workflows, rec, Busy(Holding(job)), verdicts) && Orderly(Busy(Holding(job)), verdicts)
  {
    hide Kept;
  }

  lemma OnCourseAtRest(bodies: Bodies, workflows: Workflows, rec: Record, w: Where, verdicts: seq<Verdict>)
    requires OnCourse(bodies, workflows, rec, w, verdicts) && !w.Busy?
    ensures Kept(bodies, workflows, rec, verdicts)
  {
    hide Kept;
  }

  lemma HandingOnCourse(
    rules: Rules, workflows: Workflows, rec: Record, w: Where, doing: Doing, verdicts: seq<Verdict>)
    requires rules.bodies.Some? && OnCourse(rules.bodies.value, workflows, rec, w, verdicts) && Orderly(w, verdicts)
    requires !w.Busy? && DoOne(rules, workflows, rec, w, doing).Some?
    ensures var (rec', w') := DoOne(rules, workflows, rec, w, doing).value;
            OnCourse(rules.bodies.value, workflows, rec', w', Ruled(verdicts, doing))
            && Orderly(w', Ruled(verdicts, doing))
  {
    hide Kept, LoadedFor, DoOne, OnCourse, Orderly, Refused, Blind;
    Handed(rules, workflows, rec, w, doing);
    if w.Queued? {
      TakingOnCourse(rules.bodies.value, workflows, rec, w.job, verdicts);
    } else {
      OnCourseAtRest(rules.bodies.value, workflows, rec, w, verdicts);
      LoadingOnCourse(rules.bodies.value, workflows, rec, verdicts, doing.approved, doing.comment, doing.input);
      WaitingNotRefused(rules.bodies.value, workflows, rec, verdicts);
      ResumedOrderly(verdicts, Verdict(doing.approved, doing.comment),
                     LoadedFor(workflows, rec, doing.approved, doing.comment, doing.input).value);
    }
  }

  lemma DoOneOnCourse(
    rules: Rules, workflows: Workflows, rec: Record, w: Where, doing: Doing, verdicts: seq<Verdict>,
    httpToolOK: Fields -> bool)
    requires AllAccepted(workflows, httpToolOK)
    requires RunFits(workflows, rec, PlaceIn(w)) && rules.bodies.Some?
    requires OnCourse(rules.bodies.value, workflows, rec, w, verdicts) && Orderly(w, verdicts)
    requires DoOne(rules, workflows, rec, w, doing).Some?
    ensures var (rec', w') := DoOne(rules, workflows, rec, w, doing).value;
            OnCourse(rules.bodies.value, workflows, rec', w', Ruled(verdicts, doing))
            && Orderly(w', Ruled(verdicts, doing))
  {
    hide OnCourse, RunFits, LocalStep, ResultAllowed, Resolves, LoadedFor, AllAccepted, Orderly;
    if w.Busy? {
      ActOnCourse(rules, workflows, rec, w.pc, doing.result, verdicts, httpToolOK);
      ActStaysOrderly(workflows, rec, w.pc, doing.result, verdicts);
    } else {
      HandingOnCourse(rules, workflows, rec, w, doing, verdicts);
    }
  }

  lemma VerdictsSnoc(doings: seq<Doing>)
    requires doings != []
    ensures Verdicts(doings) == Ruled(Verdicts(doings[..|doings| - 1]), doings[|doings| - 1])
  {}

  lemma {:induction false} DoAllOnCourse(
    rules: Rules, workflows: Workflows, birth: Record, start: Where, doings: seq<Doing>, httpToolOK: Fields -> bool)
    requires AllAccepted(workflows, httpToolOK)
    requires rules.bodies.Some? && Born(workflows, birth, start) && DoAll(rules, workflows, birth, start, doings).Some?
    ensures var (rec, w) := DoAll(rules, workflows, birth, start, doings).value;
            OnCourse(rules.bodies.value, workflows, rec, w, Verdicts(doings)) && Orderly(w, Verdicts(doings))
  {
    if doings == [] {
      BornOnCourse(rules.bodies.value, workflows, birth, start);
    } else {
      hide *;
      var k := |doings| - 1;
      DoAllSnoc(rules, workflows, birth, start, doings);
      VerdictsSnoc(doings);
      DoAllFits(rules, workflows, birth, start, doings[..k]);
      DoAllOnCourse(rules, workflows, birth, start, doings[..k], httpToolOK);
      var (rec, w) := DoAll(rules, workflows, birth, start, doings[..k]).value;
      DoOneOnCourse(rules, workflows, rec, w, doings[k], Verdicts(doings[..k]), httpToolOK);
    }
  }

  // The whole system

  lemma StoryIsKept(
    rules: Rules, workflows: Workflows, rec: Record, w: Where, story: Story, httpToolOK: Fields -> bool)
    requires AllAccepted(workflows, httpToolOK) && rules.bodies.Some? && !w.Busy?
    requires OwnDoing(rules, workflows, rec, w, story)
    ensures Kept(rules.bodies.value, workflows, rec, Verdicts(story.doings))
    ensures var verdicts := Verdicts(story.doings); forall i :: 0 <= i < |verdicts| - 1 ==> verdicts[i].approved
  {
    hide Born, DoAll, OnCourse, Kept, AllAccepted, JobHeld;
    DoAllOnCourse(rules, workflows, story.birth, story.start, story.doings, httpToolOK);
    OnCourseAtRest(rules.bodies.value, workflows, rec, w, Verdicts(story.doings));
  }

  /**
   * Whatever the interleaving, when the nodes of each attempt are functions and approvals bring no input they look
   * at, a run that no call is working on is stored as the uninterrupted run of its last attempt comes to when
   * each approval returns the decision that the history gave on it: completed, parked, failed, marked for retry or
   * as dead with just those steps, outputs, error and pending state; or, exactly when the history's last decision
   * on it was a refusal, as the place it was parked at with that step resolved by the refusal.
   */
  lemma InterleavedRunIsOneRun(
    rules: Rules, capacity: nat, history: seq<Action>, s: System, r: string, httpToolOK: Fields -> bool)
    requires AfterBy(rules, capacity, history, httpToolOK) == Some(s) && rules.bodies.Some? && r in s.db
    requires forall a :: a in s.agents ==> RunOf(s.agents[a]) != r
    ensures StoryOf(rules, capacity, history, r, httpToolOK).Some?
    ensures var verdicts := Verdicts(StoryOf(rules, capacity, history, r, httpToolOK).value.doings);
            && Kept(rules.bodies.value, s.workflows, s.db[r], verdicts)
            && forall i :: 0 <= i < |verdicts| - 1 ==> verdicts[i].approved
  {
    hide AfterBy, StoryOf, Born, DoAll, IsWhere, Kept, AllAccepted, Verdicts;
    AcceptedAfter(rules, capacity, history, s, httpToolOK);
    var w := EveryRunIsOwnDoing(rules, capacity, history, s, r, httpToolOK);
    NotBusy(s, r, w);
    StoryIsKept(rules, s.workflows, s.db[r], w, StoryOf(rules, capacity, history, r, httpToolOK).value, httpToolOK);
  }

  /**
   * No history is left out: whatever the nodes of a run have returned, and whatever input its approvals came with,
   * there are bodies that return just that, with which its story is possible and its record is kept in this sense.
   */
  lemma AnyRunIsOneRun(capacity: nat, history: seq<Action>, s: System, r: string, httpToolOK: Fields -> bool)
    returns (bodies: Bodies, w: Where)
    requires AfterBy(ANYTHING, capacity, history, httpToolOK) == Some(s) && r in s.db
    requires forall a :: a in s.agents ==> RunOf(s.agents[a]) != r
    ensures IsWhere(s, r, w) && StoryOf(ANYTHING, capacity, history, r, httpToolOK).Some?
    ensures var story := StoryOf(ANYTHING, capacity, history, r, httpToolOK).value;
            && OwnDoing(Rules(Some(bodies), false), s.workflows, s.db[r], w, story)
            && Kept(bodies, s.workflows, s.db[r], Verdicts(story.doings))
  {
    hide AfterBy, StoryOf, Born, DoAll, IsWhere, Kept, AllAccepted, Verdicts;
    AcceptedAfter(ANYTHING, capacity, history, s, httpToolOK);
    w := EveryRunIsOwnDoing(ANYTHING, capacity, history, s, r, httpToolOK);
    var story := StoryOf(ANYTHING, capacity, history, r, httpToolOK).value;
    NotBusy(s, r, w);
    bodies := StoryHasBodies(s.workflows, s.db[r], w, story, httpToolOK);
    StoryIsKept(Rules(Some(bodies), false), s.workflows, s.db[r], w, story, httpToolOK);
  }

  /** In all its forms the record names the nodes of its course. */
  lemma KeptSteps(bodies: Bodies, workflows: Workflows, rec: Record, verdicts: seq<Verdict>)
    returns (o: Outcome, given: seq<Verdict>)
    requires Kept(bodies, workflows, rec, verdicts) && rec.steps != []
    ensures Course(bodies, workflows, rec.run, given, o) && NodeIDs(rec.steps) == NodeIDs(o.st.steps)
  {
    hide Course;
    o :| KeptBy(bodies, workflows, rec, verdicts, o);
    given := if Refused(verdicts) then verdicts[..|verdicts| - 1] else verdicts;
  }

  lemma CourseBreadthFirst(
    bodies: Bodies, workflows: Workflows, run: Run, steps: seq<Step>, o: Outcome, verdicts: seq<Verdict>,
    httpToolOK: Fields -> bool)
    requires AllAccepted(workflows, httpToolOK)
    requires Course(bodies, workflows, run, verdicts, o) && NodeIDs(steps) == NodeIDs(o.st.steps)
    ensures run.workflowID in workflows
    ensures var d := workflows[run.workflowID].definition;
            TrimmedDefinition(d) ==> BreadthFirstSteps(d, steps)
  {
    var g := Resolve(workflows, run.tenantID, run.workflowID).value;
    var d := workflows[run.workflowID].definition;
    assert g == GraphOf(d) && |steps| == |NodeIDs(steps)| == |o.st.steps|;
    hide Walk, PlainWalk, GraphOf, Accepted, TrimmedDefinition, Layered, ParentsFirst, Decisions;
    if TrimmedDefinition(d) {
      AcceptedRunIsBreadthFirst(d, httpToolOK, BodyOf(bodies, run), run.input, Decisions(verdicts));
    }
  }

  /** So, with trimmed identifiers, its stored steps are in breadth-first order, each node once. */
  lemma InterleavedStepsInOrder(
    capacity: nat, history: seq<Action>, s: System, r: string, httpToolOK: Fields -> bool)
    requires AfterBy(ANYTHING, capacity, history, httpToolOK) == Some(s) && r in s.db
    requires forall a :: a in s.agents ==> RunOf(s.agents[a]) != r
    ensures Distinct(NodeIDs(s.db[r].steps))
    ensures s.db[r].steps != [] ==>
              && s.db[r].run.workflowID in s.workflows
              && var d := s.workflows[s.db[r].run.workflowID].definition;
                 TrimmedDefinition(d) ==> BreadthFirstSteps(d, s.db[r].steps)
  {
    hide AllAccepted, Kept, Course, TrimmedDefinition, BreadthFirstSteps, AfterBy, StoryOf, Verdicts, NodeIDs, OwnDoing,
         IsWhere;
    AcceptedAfter(ANYTHING, capacity, history, s, httpToolOK);
    StoredStepsOnce(ANYTHING, capacity, history, s, r, httpToolOK);
    if s.db[r].steps != [] {
      var bodies, w := AnyRunIsOneRun(capacity, history, s, r, httpToolOK);
      var story := StoryOf(ANYTHING, capacity, history, r, httpToolOK).value;
      var o, given := KeptSteps(bodies, s.workflows, s.db[r], Verdicts(story.doings));
      CourseBreadthFirst(bodies, s.workflows, s.db[r].run, s.db[r].steps, o, given, httpToolOK);
    }
  }

  /** The definition a course is taken on. */
  lemma CourseDefinition(bodies: Bodies, workflows: Workflows, run: Run, verdicts: seq<Verdict>, o: Outcome)
    requires Course(bodies, workflows, run, verdicts, o)
    ensures run.workflowID in workflows
    ensures var d := workflows[run.workflowID].definition;
            GraphOf(d).Valid()
            && o == Walk(GraphOf(d), BodyOf(bodies, run), run.input, NewState(GraphOf(d).roots),
                         Elements(GraphOf(d).roots), Decisions(verdicts))
  {
    hide Walk, GraphOf, Decisions;
  }

  lemma CourseRan(
    bodies: Bodies, workflows: Workflows, run: Run, verdicts: seq<Verdict>, o: Outcome, httpToolOK: Fields -> bool)
    requires AllAccepted(workflows, httpToolOK) && Course(bodies, workflows, run, verdicts, o)
    ensures run.workflowID in workflows
    ensures var g := GraphOf(workflows[run.workflowID].definition);
            Ran(g, BodyOf(bodies, run), run.input, map[], o.st.steps, Decisions(verdicts))
    ensures o.Paused? ==> o.st.steps != [] && o.st.steps[|o.st.steps| - 1].status == WaitingApproval
  {
    CourseDefinition(bodies, workflows, run, verdicts, o);
    var d := workflows[run.workflowID].definition;
    hide Course, Walk, GraphOf, Decisions, Accepted, Ran, ReportsLast;
    AcceptedRunRan(d, httpToolOK, BodyOf(bodies, run), run.input, Decisions(verdicts));
    RunReportsLastStep(d, httpToolOK, BodyOf(bodies, run), run.input, Decisions(verdicts));
  }

  /** The stored steps are those of the course; those of a refused run are resolved by its refusal. */
  lemma KeptRan(
    bodies: Bodies, workflows: Workflows, rec: Record, verdicts: seq<Verdict>, httpToolOK: Fields -> bool)
    requires AllAccepted(workflows, httpToolOK) && Kept(bodies, workflows, rec, verdicts) && rec.steps != []
    ensures rec.run.workflowID in workflows
    ensures Ran(GraphOf(workflows[rec.run.workflowID].definition), BodyOf(bodies, rec.run), rec.run.input, map[],
                rec.steps, Decisions(verdicts))
  {
    hide Course, Ran, GraphOf, Decisions, AllAccepted, DecisionOf;
    var o :| KeptBy(bodies, workflows, rec, verdicts, o);
    if Refused(verdicts) {
      var last := |verdicts| - 1;
      CourseRan(bodies, workflows, rec.run, verdicts[..last], o, httpToolOK);
      ResolvedRan(GraphOf(workflows[rec.run.workflowID].definition), BodyOf(bodies, rec.run), rec.run.input, map[],
                  o.st.steps, Decisions(verdicts[..last]), DecisionOf(verdicts[last]));
      DecisionsSnoc(verdicts[..last], verdicts[last]);
      assert verdicts[..last] + [verdicts[last]] == verdicts;
    } else {
      CourseRan(bodies, workflows, rec.run, verdicts, o, httpToolOK);
    }
  }

  /**
   * And whatever the interleaving, each of its stored steps is what its node's body returned when given the run's
   * input and the outputs of the steps before it, or the decision that was given on it, with the node's own type and
   * configuration; it fails only as a body failed, or at a node whose type has no body.
   */
  lemma InterleavedStepsRan(
    rules: Rules, capacity: nat, history: seq<Action>, s: System, r: string, httpToolOK: Fields -> bool)
    requires AfterBy(rules, capacity, history, httpToolOK) == Some(s) && rules.bodies.Some? && r in s.db
    requires forall a :: a in s.agents ==> RunOf(s.agents[a]) != r
    requires s.db[r].steps != []
    ensures s.db[r].run.workflowID in s.workflows && StoryOf(rules, capacity, history, r, httpToolOK).Some?
    ensures var (run, story) := (s.db[r].run, StoryOf(rules, capacity, history, r, httpToolOK).value);
            Ran(GraphOf(s.workflows[run.workflowID].definition), rules.bodies.value(run.id, run.attempt), run.input,
                map[], s.db[r].steps, Decisions(Verdicts(story.doings)))
  {
    hide Kept, AfterBy, StoryOf, Verdicts, Decisions, Ran, GraphOf, AllAccepted;
    InterleavedRunIsOneRun(rules, capacity, history, s, r, httpToolOK);
    AcceptedAfter(rules, capacity, history, s, httpToolOK);
    KeptRan(rules.bodies.value, s.workflows, s.db[r],
            Verdicts(StoryOf(rules, capacity, history, r, httpToolOK).value.doings), httpToolOK);
  }
}
