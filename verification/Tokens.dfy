/** The invariant of the protocol: every run is in exactly one place, and its record fits that place. */
module Tokens {
  import opened Text
  import opened Values
  import opened Graphs
  import opened Engine
  import opened Backoff
  import opened Runs
  import opened Protocol

  /** The one place that holds the right to act on a run, with what it holds. */
  datatype Place =
    | Nowhere
    | InChannel(job: Job)
    | InTimer(timer: nat, job: Job, delay: int)
    | With(agent: nat, pc: Pc)

  // What is stored about a run

  predicate AllCompleted(steps: seq<Step>) {
    forall i :: 0 <= i < |steps| ==> steps[i].status == Completed
  }

  predicate AllButLastCompleted(steps: seq<Step>) {
    forall i :: 0 <= i < |steps| - 1 ==> steps[i].status == Completed
  }

  /** The repository's promise about one run. */
  predicate Stored(rec: Record) {
    && (rec.pending.Some? <==> rec.run.status == RunWaitingApproval)
    && (rec.run.status == RunWaitingApproval ==>
          && rec.steps != []
          && rec.steps[|rec.steps| - 1].nodeID == rec.pending.value.waitingNodeID
          && rec.steps[|rec.steps| - 1].status == WaitingApproval
          && AllButLastCompleted(rec.steps))
    && (rec.run.status == RunFailed || rec.run.status == RunDeadLetter ==> AllButLastCompleted(rec.steps))
    && (rec.run.status == RunCompleted ==> AllCompleted(rec.steps))
    && Legal(rec.log)
  }

  predicate Resolvable(workflows: Workflows, run: Run) {
    TrimSpace(run.tenantID) != "" && Resolve(workflows, run.tenantID, run.workflowID).Ok?
  }

  /** The job names the run and carries its limits. */
  predicate Names(job: Job, run: Run) {
    && job.runID == run.id && job.tenantID == run.tenantID && job.workflowID == run.workflowID
    && job.maxAttempts == run.maxAttempts == MAX_ATTEMPTS && run.trigger == Async
  }

  /** A queued run and the job that is going to run it agree on the attempts made. */
  predicate JobReady(rec: Record, job: Job) {
    && rec.run.status == RunQueued && Names(job, rec.run)
    && 0 <= job.attempt == rec.run.attempt < MAX_ATTEMPTS
  }

  /** The agent's copy of the run differs from the stored one in status, input, output and error only. */
  predicate SameRun(run: Run, stored: Run) {
    && run.id == stored.id && run.tenantID == stored.tenantID && run.workflowID == stored.workflowID
    && run.trigger == stored.trigger && run.attempt == stored.attempt && run.maxAttempts == stored.maxAttempts
  }

  predicate AttemptsInRange(run: Run) {
    && 0 <= run.attempt <= run.maxAttempts
    && (if run.trigger == Async then run.maxAttempts == MAX_ATTEMPTS else run.maxAttempts == 0)
  }

  /** A job in hand has started the attempt it was for. */
  predicate Attempting(job: Job, run: Run) {
    Names(job, run) && 1 <= run.attempt <= MAX_ATTEMPTS
  }

  /** The stored run while an execution of it is under way. */
  predicate Executing(rec: Record, mode: Mode, run: Run) {
    && SameRun(run, rec.run) && run.status == RunRunning
    && match mode
       case ByJob(job) => rec.run.status == RunRunning && Attempting(job, run)
       case BySync => rec.run.status == RunRunning && run.trigger == Sync
       case ByResume => rec.run.status == RunWaitingApproval
  }

  predicate OutcomeFits(o: Outcome) {
    match o
    case Finished(st) => AllCompleted(st.steps)
    case Broken(st, _, _) => AllButLastCompleted(st.steps)
    case Paused(st, _, pending) =>
      && st.steps != [] && AllButLastCompleted(st.steps)
      && st.steps[|st.steps| - 1].nodeID == pending.waitingNodeID
      && st.steps[|st.steps| - 1].status == WaitingApproval
  }

  // Where the log stands, place by place

  function PhaseBeforeStart(mode: Mode, run: Run): Phase {
    match mode
    case ByJob(_) => if run.attempt >= 1 then Ready(run.attempt - 1) else Illegal
    case BySync => Unborn
    case ByResume => if run.attempt >= 0 then Resolved(run.attempt) else Illegal
  }

  predicate WrittenFits(phase: Phase, mode: Mode, run: Run)
    requires run.attempt >= 0
  {
    match run.status
    case RunCompleted => phase == Active(run.attempt, mode.ByJob?)
    case RunFailed => phase == StepBroke(run.attempt, mode.ByJob?) || (mode.ByResume? && phase == Resolved(run.attempt))
    case RunWaitingApproval => phase == StepParked(run.attempt, mode.ByJob?)
    case _ => false
  }

  predicate ReturnedFits(phase: Phase, run: Run)
    requires run.attempt >= 0
  {
    match run.status
    case RunCompleted => phase == Ended(run.attempt)
    case RunFailed => phase == Broke(run.attempt, true)
    case RunWaitingApproval => phase.Parked? && phase.attempts == run.attempt
    case _ => false
  }

  predicate AtRest(phase: Phase, run: Run)
    requires run.attempt >= 0
  {
    match run.status
    case RunCompleted => phase == Ended(run.attempt)
    case RunFailed => phase == Broke(run.attempt, false)
    case RunWaitingApproval => phase.Parked? && phase.attempts == run.attempt
    case RunDeadLetter => phase == Buried(run.attempt)
    case _ => false
  }

  predicate PcFits(rec: Record, pc: Pc)
    requires rec.run.attempt >= 0
  {
    var phase := PhaseOf(rec.log);
    match pc
    case Created(job) => JobReady(rec, job) && rec.run.attempt == 0 && phase == Unborn
    case Announced(job) => JobReady(rec, job) && phase == Ready(rec.run.attempt)
    case Holding(job) => JobReady(rec, job) && phase == Ready(rec.run.attempt)
    case Unresolvable(_, _) => false
    case Checked(job, run, g) =>
      && JobReady(rec, job) && phase == Ready(rec.run.attempt)
      && run.status == RunRunning && SameRun(run.(attempt := job.attempt), rec.run) && run.attempt == job.attempt + 1
    case Starting(mode, run, g, st) =>
      Executing(rec, mode, run) && AllCompleted(st.steps) && phase == PhaseBeforeStart(mode, run)
    case Walking(mode, run, g, st, queued) =>
      Executing(rec, mode, run) && AllCompleted(st.steps) && phase == Active(run.attempt, mode.ByJob?)
    case Stopped(mode, run, outcome) =>
      && Executing(rec, mode, run) && OutcomeFits(outcome)
      && phase == (match outcome
                   case Finished(_) => Active(run.attempt, mode.ByJob?)
                   case Broken(_, _, _) => StepBroke(run.attempt, mode.ByJob?)
                   case Paused(_, _, _) => StepParked(run.attempt, mode.ByJob?))
    case Written(mode, run) =>
      rec.run == run && WrittenFits(phase, mode, run) && (mode.ByJob? ==> Attempting(mode.job, run))
    case Returned(job, run) => rec.run == run && Attempting(job, run) && ReturnedFits(phase, run)
    case Requeued(job, delay) =>
      && JobReady(rec, job) && job.attempt >= 1 && phase == Broke(rec.run.attempt, true)
      && delay == RetryDelay(BASE_BACKOFF, rec.run.attempt)
    case Scheduling(job, delay) => JobReady(rec, job) && phase == Ready(rec.run.attempt)
    case DeadLettered(run) =>
      rec.run == run && run.status == RunDeadLetter && run.attempt == MAX_ATTEMPTS && phase == Broke(MAX_ATTEMPTS, true)
    case Loaded(run, steps, pending, _, _, _) =>
      && rec.run.status == RunWaitingApproval && SameRun(run, rec.run)
      && steps == rec.steps && rec.pending == Some(pending)
      && phase.Parked? && phase.attempts == rec.run.attempt
    case Rejecting(run, steps) =>
      && rec.run.status == RunWaitingApproval && SameRun(run, rec.run) && run.status == RunFailed
      && AllCompleted(steps) && phase == Resolved(rec.run.attempt)
  }

  predicate PlaceFits(rec: Record, place: Place)
    requires rec.run.attempt >= 0
  {
    match place
    case Nowhere => AtRest(PhaseOf(rec.log), rec.run)
    case InChannel(job) => JobReady(rec, job) && PhaseOf(rec.log) == Ready(rec.run.attempt)
    case InTimer(_, job, _) => JobReady(rec, job) && PhaseOf(rec.log) == Ready(rec.run.attempt)
    case With(_, pc) => PcFits(rec, pc)
  }

  /** What holds of a record wherever its run is. */
  predicate RecordFits(workflows: Workflows, rec: Record) {
    AttemptsInRange(rec.run) && Resolvable(workflows, rec.run) && Stored(rec)
  }

  predicate RunFits(workflows: Workflows, rec: Record, place: Place) {
    RecordFits(workflows, rec) && PlaceFits(rec, place)
  }

  // One step of one agent, against its own record

  predicate DestFits(rec: Record, dest: Dest)
    requires rec.run.attempt >= 0
  {
    match dest
    case Stay(pc) => PcFits(rec, pc)
    case ToChannel(job) => PlaceFits(rec, InChannel(job))
    case ToTimer(job, delay) => PlaceFits(rec, InTimer(0, job, delay))
    case Leave => PlaceFits(rec, Nowhere)
  }

  predicate EffectFits(workflows: Workflows, rec: Record, e: Effect) {
    RecordFits(workflows, e.rec) && DestFits(e.rec, e.dest) && e.rec.run.id == rec.run.id
  }

  /** What fits a record belongs to its run. */
  lemma PcFitsItsRun(rec: Record, pc: Pc)
    requires rec.run.attempt >= 0 && PcFits(rec, pc)
    ensures RunOf(pc) == rec.run.id
  {
    hide PhaseOf;
  }

  lemma AnnouncingFits(workflows: Workflows, rec: Record, pc: Pc, result: Result<Value, string>)
    requires RecordFits(workflows, rec) && PcFits(rec, pc)
    requires pc.Created? || pc.Requeued? || pc.DeadLettered?
    ensures EffectFits(workflows, rec, LocalStep(workflows, rec, pc, result))
  {
    hide Resolvable, RetryDelay, PhaseOf, AllCompleted, AllButLastCompleted;
    var e := LocalStep(workflows, rec, pc, result);
    PhaseAppend(rec.log, e.rec.log[|rec.log|]);
  }

  lemma SendingFits(workflows: Workflows, rec: Record, pc: Pc, result: Result<Value, string>)
    requires RecordFits(workflows, rec) && PcFits(rec, pc) && (pc.Announced? || pc.Scheduling?)
    ensures EffectFits(workflows, rec, LocalStep(workflows, rec, pc, result))
  {
    hide Resolvable, PhaseOf, Stored;
  }

  lemma HoldingFits(workflows: Workflows, rec: Record, pc: Pc, result: Result<Value, string>)
    requires RecordFits(workflows, rec) && PcFits(rec, pc) && (pc.Holding? || pc.Checked?)
    ensures EffectFits(workflows, rec, LocalStep(workflows, rec, pc, result))
  {
    hide Legal, PhaseOf, MergeInput, Resolve;
  }

  lemma DecisionFits(workflows: Workflows, rec: Record, pc: Pc, result: Result<Value, string>)
    requires RecordFits(workflows, rec) && PcFits(rec, pc) && pc.Returned?
    ensures EffectFits(workflows, rec, LocalStep(workflows, rec, pc, result))
  {
    hide Legal, PhaseOf, Advance, Resolve, TrimSpace, RetryOutput, DeadLetterOutput, RetryDelay;
  }

  lemma StartingFits(workflows: Workflows, rec: Record, pc: Pc, result: Result<Value, string>)
    requires RecordFits(workflows, rec) && PcFits(rec, pc) && pc.Starting?
    ensures EffectFits(workflows, rec, LocalStep(workflows, rec, pc, result))
  {
    hide Resolvable, PhaseOf;
    PhaseAppend(rec.log, RunStartedEvent);
  }

  lemma WalkingFits(workflows: Workflows, rec: Record, pc: Pc, result: Result<Value, string>)
    requires RecordFits(workflows, rec) && PcFits(rec, pc) && pc.Walking?
    ensures EffectFits(workflows, rec, LocalStep(workflows, rec, pc, result))
  {
    hide Resolvable, WalkStep;
    if pc.st.queue != [] {
      WalkStepFits(workflows, rec, pc, result);
    }
  }

  lemma WalkGoFits(workflows: Workflows, rec: Record, pc: Pc, st: State, queued: set<string>, id: string)
    requires RecordFits(workflows, rec) && PcFits(rec, pc) && pc.Walking? && AllCompleted(st.steps)
    ensures EffectFits(workflows, rec, Effect(RecordEvent(rec, StepCompletedEvent(id)),
                                              Stay(Walking(pc.mode, pc.run, pc.g, st, queued))))
  {
    hide Resolvable, PhaseOf, AllCompleted, AllButLastCompleted, SameRun, Attempting;
    PhaseAppend(rec.log, StepCompletedEvent(id));
  }

  lemma WalkStopFits(workflows: Workflows, rec: Record, pc: Pc, outcome: Outcome, id: string)
    requires RecordFits(workflows, rec) && PcFits(rec, pc) && pc.Walking? && OutcomeFits(outcome) && !outcome.Finished?
    ensures EffectFits(workflows, rec,
                       Effect(RecordEvent(rec, if outcome.Broken? then StepFailedEvent(id) else StepWaitingEvent(id)),
                              Stay(Stopped(pc.mode, pc.run, outcome))))
  {
    hide Resolvable, PhaseOf, OutcomeFits, AllCompleted, AllButLastCompleted, SameRun, Attempting;
    PhaseAppend(rec.log, if outcome.Broken? then StepFailedEvent(id) else StepWaitingEvent(id));
  }

  lemma WalkStepFits(workflows: Workflows, rec: Record, pc: Pc, result: Result<Value, string>)
    requires RecordFits(workflows, rec) && PcFits(rec, pc) && pc.Walking? && pc.st.queue != []
    ensures EffectFits(workflows, rec, WalkStep(rec, pc, result))
  {
    var node := pc.g.Node(pc.st.queue[0]);
    var returned := if Executable(node.typ) then result else Err("node type is not supported by sync execution yet");
    assert AllCompleted(pc.st.steps);
    hide RecordFits, PcFits, EffectFits, OutcomeFits, AllCompleted, TakeTurn, RecordEvent;
    TurnFits(pc.g, pc.st, pc.queued, returned);
    match TakeTurn(pc.g, pc.st, pc.queued, returned, [])
    case Go(st, queued, _) => WalkGoFits(workflows, rec, pc, st, queued, node.id);
    case Stop(outcome) => WalkStopFits(workflows, rec, pc, outcome, node.id);
  }

  lemma TurnFits(g: Graph, st: State, queued: set<string>, result: Result<Value, string>)
    requires st.queue != [] && AllCompleted(st.steps)
    ensures var turn := TakeTurn(g, st, queued, result, []);
            if turn.Go? then AllCompleted(turn.st.steps) else OutcomeFits(turn.outcome) && !turn.outcome.Finished?
  {
    hide Fresh, ApprovalRequest, Next;
  }

  lemma BrokenFits(workflows: Workflows, rec: Record, pc: Pc)
    requires RecordFits(workflows, rec) && PcFits(rec, pc) && pc.Stopped? && pc.outcome.Broken?
    ensures EffectFits(workflows, rec, StoreOutcome(rec, pc.mode, pc.run, pc.outcome))
  {
    hide Legal, PhaseOf, Resolve, TrimSpace, AllButLastCompleted;
  }

  lemma PausedFits(workflows: Workflows, rec: Record, pc: Pc)
    requires RecordFits(workflows, rec) && PcFits(rec, pc) && pc.Stopped? && pc.outcome.Paused?
    ensures EffectFits(workflows, rec, StoreOutcome(rec, pc.mode, pc.run, pc.outcome))
  {
    hide Legal, PhaseOf, Resolve, TrimSpace, AllButLastCompleted;
  }

  lemma FinishedFits(workflows: Workflows, rec: Record, pc: Pc)
    requires RecordFits(workflows, rec) && PcFits(rec, pc) && pc.Stopped? && pc.outcome.Finished?
    ensures EffectFits(workflows, rec, StoreOutcome(rec, pc.mode, pc.run, pc.outcome))
  {
    hide Legal, PhaseOf, Resolve, TrimSpace, RunOutput;
  }

  lemma StoppedFits(workflows: Workflows, rec: Record, pc: Pc, result: Result<Value, string>)
    requires RecordFits(workflows, rec) && PcFits(rec, pc) && pc.Stopped?
    ensures EffectFits(workflows, rec, LocalStep(workflows, rec, pc, result))
  {
    hide RecordFits, PcFits, EffectFits, StoreOutcome;
    match pc.outcome
    case Broken(_, _, _) => BrokenFits(workflows, rec, pc);
    case Paused(_, _, _) => PausedFits(workflows, rec, pc);
    case Finished(_) => FinishedFits(workflows, rec, pc);
  }

  lemma WrittenFitsNext(workflows: Workflows, rec: Record, pc: Pc, result: Result<Value, string>)
    requires RecordFits(workflows, rec) && PcFits(rec, pc) && pc.Written?
    ensures EffectFits(workflows, rec, LocalStep(workflows, rec, pc, result))
  {
    hide Resolvable, PhaseOf, AllCompleted, AllButLastCompleted;
    PhaseAppend(rec.log, EndEvent(pc.run.status));
  }

  lemma LoadedFits(workflows: Workflows, rec: Record, pc: Pc, result: Result<Value, string>)
    requires RecordFits(workflows, rec) && PcFits(rec, pc) && pc.Loaded?
    ensures EffectFits(workflows, rec, LocalStep(workflows, rec, pc, result))
  {
    hide Resolve, TrimSpace, Decision, PhaseOf;
    var decision := Decision(pc.approved, pc.comment);
    PhaseAppend(rec.log, ApprovalResolvedEvent(pc.pending.waitingNodeID));
    ResolvedCompleted(pc.steps, decision);
    assert Thaw(pc.steps, pc.pending, decision).steps == ResolvedSteps(pc.steps, decision);
  }

  lemma ResolvedCompleted(steps: seq<Step>, decision: Value)
    requires steps != [] && AllButLastCompleted(steps)
    ensures AllCompleted(ResolvedSteps(steps, decision))
  {}

  lemma RejectingFits(workflows: Workflows, rec: Record, pc: Pc, result: Result<Value, string>)
    requires RecordFits(workflows, rec) && PcFits(rec, pc) && pc.Rejecting?
    ensures EffectFits(workflows, rec, LocalStep(workflows, rec, pc, result))
  {
    hide Resolve, TrimSpace, Legal, PhaseOf;
  }

  /** Whatever a node returns, an agent's step leaves its run where the protocol wants it. */
  lemma LocalStepFits(workflows: Workflows, rec: Record, pc: Pc, result: Result<Value, string>)
    requires RecordFits(workflows, rec) && PcFits(rec, pc)
    ensures EffectFits(workflows, rec, LocalStep(workflows, rec, pc, result))
  {
    hide RecordFits, EffectFits, LocalStep;
    match pc {
      case Created(_) => AnnouncingFits(workflows, rec, pc, result);
      case Announced(_) => SendingFits(workflows, rec, pc, result);
      case Requeued(_, _) => AnnouncingFits(workflows, rec, pc, result);
      case Scheduling(_, _) => SendingFits(workflows, rec, pc, result);
      case DeadLettered(_) => AnnouncingFits(workflows, rec, pc, result);
      case Holding(_) => HoldingFits(workflows, rec, pc, result);
      case Checked(_, _, _) => HoldingFits(workflows, rec, pc, result);
      case Unresolvable(_, _) => assert false;
      case Returned(_, _) => DecisionFits(workflows, rec, pc, result);
      case Starting(_, _, _, _) => StartingFits(workflows, rec, pc, result);
      case Walking(_, _, _, _, _) => WalkingFits(workflows, rec, pc, result);
      case Stopped(_, _, _) => StoppedFits(workflows, rec, pc, result);
      case Written(_, _) => WrittenFitsNext(workflows, rec, pc, result);
      case Loaded(_, _, _, _, _, _) => LoadedFits(workflows, rec, pc, result);
      case Rejecting(_, _) => RejectingFits(workflows, rec, pc, result);
    }
  }
}
