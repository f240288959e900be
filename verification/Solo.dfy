/** One run on its own: the small steps of its own calls, with no other run and no other agent in sight. */
module Solo {
  import opened Text
  import opened Values
  import opened Graphs
  import opened Engine
  import opened Backoff
  import opened Runs
  import opened Protocol
  import opened Tokens
  import opened Safety

  /** Where the right to act on the run is: with nobody, in a job on its way to a worker, or with a call. */
  datatype Where = Resting | Queued(job: Job) | Busy(pc: Pc)

  datatype Doing =
    | Act(result: Result<Value, string>)
    | Take
    | ResumeWith(approved: bool, comment: string, input: Fields)

  type Bodies = (string, int) -> Body

  /** The bodies do not look at the run's input. */
  ghost predicate Blind(bodies: Bodies) {
    forall runID, attempt, node, input, other, outputs ::
      bodies(runID, attempt)(node, input, outputs) == bodies(runID, attempt)(node, other, outputs)
  }

  /**
   * What is known of the outside: with `bodies`, every attempt of every run has node bodies that are functions,
   * and approvals bring no extra input that these would look at; with `loud`, errors have a message.
   */
  datatype Rules = Rules(bodies: Option<Bodies>, loud: bool)

  const ANYTHING: Rules := Rules(None, false)

  predicate ResultAllowed(rules: Rules, pc: Pc, result: Result<Value, string>) {
    pc.Walking? && pc.st.queue != [] ==>
    && (rules.loud && result.Err? ==> result.error != "")
    && (rules.bodies.Some? ==>
          result == rules.bodies.value(pc.run.id, pc.run.attempt)
            (pc.g.Node(pc.st.queue[0]), pc.run.input, pc.st.stepOutputs))
  }

  ghost predicate InputAllowed(rules: Rules, input: Fields) {
    rules.bodies.Some? ==> input == map[] || Blind(rules.bodies.value)
  }

  function WhereTo(dest: Dest): Where {
    match dest
    case Stay(pc) => Busy(pc)
    case ToChannel(job) => Queued(job)
    case ToTimer(job, _) => Queued(job)
    case Leave => Resting
  }

  lemma StayIsBusy(dest: Dest)
    ensures dest.Stay? ==> WhereTo(dest) == Busy(dest.pc)
  {}

  /** What LoadPending and buildGraph hand to a resume. */
  function LoadedFor(workflows: Workflows, rec: Record, approved: bool, comment: string, input: Fields): Option<Pc> {
    if rec.pending.None? || Resolve(workflows, rec.run.tenantID, rec.run.workflowID).Err? then None
    else Some(Loaded(rec.run.(input := MergeInput(rec.run.input, input)), rec.steps, rec.pending.value,
                     approved, comment,
                     Resolve(workflows, rec.run.tenantID, rec.run.workflowID).value))
  }

  ghost function DoOne(
    rules: Rules, workflows: Workflows, rec: Record, w: Where, doing: Doing): Option<(Record, Where)> {
    match (w, doing)
    case (Busy(pc), Act(result)) =>
      if !ResultAllowed(rules, pc, result) || !Resolves(workflows, pc) then None
      else
        var e := LocalStep(workflows, rec, pc, result);
        Some((e.rec, WhereTo(e.dest)))
    case (Queued(job), Take) => Some((rec, Busy(Holding(job))))
    case (Resting, ResumeWith(approved, comment, input)) =>
      var loaded := LoadedFor(workflows, rec, approved, comment, input);
      if !InputAllowed(rules, input) || loaded.None? then None else Some((rec, Busy(loaded.value)))
    case _ => None
  }

  /** The workflow of a dequeued job is there. */
  predicate Resolves(workflows: Workflows, pc: Pc) {
    pc.Holding? ==> Resolve(workflows, pc.job.tenantID, pc.job.workflowID).Ok?
  }

  /** How a run comes into being: stored as queued with its first job in hand, or as running from its roots. */
  predicate Born(workflows: Workflows, rec: Record, w: Where) {
    var run := rec.run;
    && rec == CreateRun(run) && TrimSpace(run.tenantID) != "" && Resolve(workflows, run.tenantID, run.workflowID).Ok?
    && w.Busy?
    && (if run.trigger == Async then
          && run == NewRun(run.id, run.tenantID, run.workflowID, RunQueued, Async, MAX_ATTEMPTS, run.input)
          && w.pc == Created(Job(run.id, run.tenantID, run.workflowID, 0, MAX_ATTEMPTS, run.input))
        else
          var g := Resolve(workflows, run.tenantID, run.workflowID).value;
          && run == NewRun(run.id, run.tenantID, run.workflowID, RunRunning, Sync, 0, run.input)
          && w.pc == Starting(BySync, run, g, NewState(g.roots)))
  }

  /** The run after some doings, as long as each was possible and allowed. */
  ghost function DoAll(
    rules: Rules, workflows: Workflows, rec: Record, w: Where, doings: seq<Doing>): Option<(Record, Where)> {
    if doings == [] then Some((rec, w))
    else
      match DoAll(rules, workflows, rec, w, doings[..|doings| - 1])
      case None => None
      case Some((rec', w')) => DoOne(rules, workflows, rec', w', doings[|doings| - 1])
  }

  lemma DoAllSnoc(rules: Rules, workflows: Workflows, rec: Record, w: Where, doings: seq<Doing>)
    requires doings != [] && DoAll(rules, workflows, rec, w, doings).Some?
    ensures var before := DoAll(rules, workflows, rec, w, doings[..|doings| - 1]);
            && before.Some?
            && DoAll(rules, workflows, rec, w, doings)
               == DoOne(rules, workflows, before.value.0, before.value.1, doings[|doings| - 1])
  {
    hide DoOne;
  }

  lemma DoAllOneMore(rules: Rules, workflows: Workflows, rec: Record, w: Where, doings: seq<Doing>, doing: Doing)
    requires DoAll(rules, workflows, rec, w, doings).Some?
    ensures var before := DoAll(rules, workflows, rec, w, doings).value;
            DoAll(rules, workflows, rec, w, doings + [doing]) == DoOne(rules, workflows, before.0, before.1, doing)
  {
    hide DoOne;
    assert (doings + [doing])[..|doings|] == doings;
  }

  /** How a run was stored first, which call it was then with, and what has been done to it since. */
  datatype Story = Story(birth: Record, start: Where, doings: seq<Doing>)

  function ToldOn(story: Story, doing: Doing): Story {
    story.(doings := story.doings + [doing])
  }

  /** The record is what the doings, each undisturbed, have made of the run, and the run is where they left it. */
  ghost predicate OwnDoing(rules: Rules, workflows: Workflows, rec: Record, w: Where, story: Story) {
    && Born(workflows, story.birth, story.start)
    && DoAll(rules, workflows, story.birth, story.start, story.doings) == Some((rec, w))
  }

  lemma OwnDoingContinues(
    rules: Rules, workflows: Workflows, rec: Record, w: Where, story: Story, doing: Doing, rec': Record, w': Where)
    requires OwnDoing(rules, workflows, rec, w, story)
    requires DoOne(rules, workflows, rec, w, doing) == Some((rec', w'))
    ensures OwnDoing(rules, workflows, rec', w', ToldOn(story, doing))
  {
    hide Born, DoOne, DoAll;
    DoAllOneMore(rules, workflows, story.birth, story.start, story.doings, doing);
  }

  // A run's own steps do not notice new workflows

  lemma ResolveGrows(workflows: Workflows, id: string, stored: StoredWorkflow, tenantID: string, workflowID: string)
    requires id !in workflows && Resolve(workflows, tenantID, workflowID).Ok?
    ensures Resolve(workflows[id := stored], tenantID, workflowID) == Resolve(workflows, tenantID, workflowID)
  {
    hide GraphOf, Roots;
  }

  lemma CheckGrows(workflows: Workflows, id: string, stored: StoredWorkflow, rec: Record, job: Job)
    requires id !in workflows && Resolve(workflows, job.tenantID, job.workflowID).Ok?
    ensures CheckJob(workflows[id := stored], rec, job) == CheckJob(workflows, rec, job)
  {
    ResolveGrows(workflows, id, stored, job.tenantID, job.workflowID);
    hide Resolve, MergeInput, TrimSpace;
  }

  lemma StepGrows(
    workflows: Workflows, id: string, stored: StoredWorkflow, rec: Record, pc: Pc, result: Result<Value, string>)
    requires id !in workflows && Resolves(workflows, pc)
    ensures Resolves(workflows[id := stored], pc)
    ensures LocalStep(workflows[id := stored], rec, pc, result) == LocalStep(workflows, rec, pc, result)
  {
    if pc.Holding? {
      ResolveGrows(workflows, id, stored, pc.job.tenantID, pc.job.workflowID);
      CheckGrows(workflows, id, stored, rec, pc.job);
    }
    hide Resolve, CheckJob, WalkStep, StoreOutcome, Decide, ResolveApproval;
  }

  lemma DoOneGrows(
    rules: Rules, workflows: Workflows, id: string, stored: StoredWorkflow, rec: Record, w: Where, doing: Doing)
    requires id !in workflows && DoOne(rules, workflows, rec, w, doing).Some?
    ensures DoOne(rules, workflows[id := stored], rec, w, doing) == DoOne(rules, workflows, rec, w, doing)
  {
    hide LocalStep, Resolve, Resolves, ResultAllowed, InputAllowed, MergeInput;
    if w.Busy? {
      StepGrows(workflows, id, stored, rec, w.pc, doing.result);
    } else if w.Resting? {
      ResolveGrows(workflows, id, stored, rec.run.tenantID, rec.run.workflowID);
    }
  }

  lemma {:induction false} DoAllGrows(
    rules: Rules, workflows: Workflows, id: string, stored: StoredWorkflow, rec: Record, w: Where, doings: seq<Doing>)
    requires id !in workflows && DoAll(rules, workflows, rec, w, doings).Some?
    ensures DoAll(rules, workflows[id := stored], rec, w, doings) == DoAll(rules, workflows, rec, w, doings)
  {
    if doings != [] {
      hide DoOne;
      var k := |doings| - 1;
      DoAllGrows(rules, workflows, id, stored, rec, w, doings[..k]);
      var before := DoAll(rules, workflows, rec, w, doings[..k]).value;
      DoOneGrows(rules, workflows, id, stored, before.0, before.1, doings[k]);
    }
  }

  lemma OwnDoingGrows(
    rules: Rules, workflows: Workflows, id: string, stored: StoredWorkflow, rec: Record, w: Where, story: Story)
    requires id !in workflows && OwnDoing(rules, workflows, rec, w, story)
    ensures OwnDoing(rules, workflows[id := stored], rec, w, story)
  {
    DoAllGrows(rules, workflows, id, stored, story.birth, story.start, story.doings);
    ResolveGrows(workflows, id, stored, story.birth.run.tenantID, story.birth.run.workflowID);
    hide DoAll, Resolve, TrimSpace;
  }

  // The invariant of the protocol, for one run

  function PlaceIn(w: Where): Place {
    match w
    case Resting => Nowhere
    case Queued(job) => InChannel(job)
    case Busy(pc) => With(0, pc)
  }

  lemma BornFits(workflows: Workflows, rec: Record, w: Where)
    requires Born(workflows, rec, w)
    ensures RunFits(workflows, rec, PlaceIn(w))
  {
    hide TrimSpace, Resolve;
    assert PhaseOf([]) == Unborn;
  }

  /** The branch for a workflow that is gone is never entered. */
  lemma NeverUnresolvable(workflows: Workflows, rec: Record, pc: Pc)
    requires RunFits(workflows, rec, With(0, pc))
    ensures !pc.Unresolvable?
  {
    hide RecordFits, PhaseOf;
  }

  /** What a resume has loaded is the waiting run, with its waiting step last. */
  lemma LoadedWaits(workflows: Workflows, rec: Record, pc: Pc)
    requires RunFits(workflows, rec, With(0, pc)) && pc.Loaded?
    ensures rec.run.status == RunWaitingApproval && pc.steps == rec.steps != [] && rec.pending == Some(pc.pending)
    ensures var last := rec.steps[|rec.steps| - 1];
            last.nodeID == pc.pending.waitingNodeID && last.status == WaitingApproval
  {
    hide PhaseOf, Resolvable, AllButLastCompleted, Legal;
  }

  lemma ResumeFits(workflows: Workflows, rec: Record, approved: bool, comment: string, input: Fields)
    requires RunFits(workflows, rec, Nowhere) && LoadedFor(workflows, rec, approved, comment, input).Some?
    ensures RunFits(workflows, rec, With(0, LoadedFor(workflows, rec, approved, comment, input).value))
  {
    hide RecordFits, AtRest, PcFits, MergeInput, Resolve;
    LoadedFitsWaiting(workflows, rec, LoadedFor(workflows, rec, approved, comment, input).value);
  }

  lemma StepFits(workflows: Workflows, rec: Record, pc: Pc, result: Result<Value, string>)
    requires RunFits(workflows, rec, With(0, pc))
    ensures var e := LocalStep(workflows, rec, pc, result);
            RunFits(workflows, e.rec, PlaceIn(WhereTo(e.dest)))
  {
    hide LocalStep, RecordFits, PcFits, EffectFits, JobReady, PhaseOf;
    LocalStepFits(workflows, rec, pc, result);
    EffectKeepsRun(workflows, rec, LocalStep(workflows, rec, pc, result), 0, 0);
  }

  lemma DoOneFits(rules: Rules, workflows: Workflows, rec: Record, w: Where, doing: Doing)
    requires RunFits(workflows, rec, PlaceIn(w)) && DoOne(rules, workflows, rec, w, doing).Some?
    ensures var (rec', w') := DoOne(rules, workflows, rec, w, doing).value;
            RunFits(workflows, rec', PlaceIn(w'))
  {
    hide LocalStep, RunFits, LoadedFor, ResultAllowed, InputAllowed, Resolves;
    match w {
      case Busy(pc) => StepFits(workflows, rec, pc, doing.result);
      case Queued(job) => ReadyAnywhere(workflows, rec, InChannel(job), With(0, Holding(job)), job);
      case Resting => ResumeFits(workflows, rec, doing.approved, doing.comment, doing.input);
    }
  }

  lemma {:induction false} DoAllFits(
    rules: Rules, workflows: Workflows, birth: Record, start: Where, doings: seq<Doing>)
    requires Born(workflows, birth, start) && DoAll(rules, workflows, birth, start, doings).Some?
    ensures var (rec, w) := DoAll(rules, workflows, birth, start, doings).value;
            RunFits(workflows, rec, PlaceIn(w))
  {
    if doings == [] {
      BornFits(workflows, birth, start);
    } else {
      hide *;
      var k := |doings| - 1;
      DoAllSnoc(rules, workflows, birth, start, doings);
      DoAllFits(rules, workflows, birth, start, doings[..k]);
      var (rec, w) := DoAll(rules, workflows, birth, start, doings[..k]).value;
      DoOneFits(rules, workflows, rec, w, doings[k]);
    }
  }
}
