/** Every reachable state of the protocol keeps the token invariant, under every interleaving. */
module Safety {
  import opened Text
  import opened Values
  import opened Workflow
  import opened Graphs
  import opened Engine
  import opened Backoff
  import opened Runs
  import opened Protocol
  import opened Tokens

  predicate IsAt(s: System, place: Place, runID: string) {
    match place
    case Nowhere => true
    case InChannel(job) => job in s.channel && job.runID == runID
    case InTimer(t, job, delay) => t in s.timers && s.timers[t] == Timer(job, delay) && job.runID == runID
    case With(a, pc) => a in s.agents && s.agents[a] == pc && RunOf(pc) == runID
  }

  ghost predicate AgentsLocated(agents: map<nat, Pc>, owner: map<string, Place>) {
    forall a :: a in agents ==> RunOf(agents[a]) in owner && owner[RunOf(agents[a])] == With(a, agents[a])
  }

  ghost predicate TimersLocated(timers: map<nat, Timer>, owner: map<string, Place>) {
    forall t :: t in timers ==>
      && timers[t].job.runID in owner
      && owner[timers[t].job.runID] == InTimer(t, timers[t].job, timers[t].delay)
  }

  ghost predicate ChannelLocated(channel: seq<Job>, owner: map<string, Place>) {
    && Distinct(channel)
    && forall job :: job in channel ==> job.runID in owner && owner[job.runID] == InChannel(job)
  }

  /** `owner` says where each run is; every job and every busy agent is where its run is. */
  ghost predicate Located(s: System, owner: map<string, Place>) {
    && owner.Keys == s.db.Keys
    && (forall r :: r in owner ==> IsAt(s, owner[r], r))
    && AgentsLocated(s.agents, owner)
    && TimersLocated(s.timers, owner)
    && ChannelLocated(s.channel, owner)
  }

  ghost predicate Fitting(s: System, owner: map<string, Place>, httpToolOK: Fields -> bool) {
    && owner.Keys == s.db.Keys
    && (forall r :: r in s.db ==> s.db[r].run.id == r && RunFits(s.workflows, s.db[r], owner[r]))
    && (forall w :: w in s.workflows ==> Accepted(s.workflows[w].definition, httpToolOK))
  }

  ghost predicate Safe(s: System, owner: map<string, Place>, httpToolOK: Fields -> bool) {
    Located(s, owner) && Fitting(s, owner, httpToolOK)
  }

  // Moving one run from place to place

  lemma FitOne(
    s: System, owner: map<string, Place>, s': System, r: string, place: Place, httpToolOK: Fields -> bool)
    requires Fitting(s, owner, httpToolOK) && s'.workflows == s.workflows
    requires r in s'.db && s'.db == s.db[r := s'.db[r]]
    requires s'.db[r].run.id == r && RunFits(s.workflows, s'.db[r], place)
    ensures Fitting(s', owner[r := place], httpToolOK)
  {
    hide RunFits;
  }

  // The agents' steps

  function DestPlace(agent: nat, timer: nat, dest: Dest): Place {
    match dest
    case Stay(pc) => With(agent, pc)
    case ToChannel(job) => InChannel(job)
    case ToTimer(job, delay) => InTimer(timer, job, delay)
    case Leave => Nowhere
  }

  function DestRun(dest: Dest, r: string): string {
    match dest
    case Stay(pc) => RunOf(pc)
    case ToChannel(job) => job.runID
    case ToTimer(job, _) => job.runID
    case Leave => r
  }

  lemma EffectKeepsRun(workflows: Workflows, rec: Record, e: Effect, agent: nat, timer: nat)
    requires EffectFits(workflows, rec, e)
    ensures DestRun(e.dest, rec.run.id) == rec.run.id
    ensures RunFits(workflows, e.rec, DestPlace(agent, timer, e.dest))
  {
    hide PhaseOf, Resolvable, Stored;
    if e.dest.Stay? {
      PcFitsItsRun(e.rec, e.dest.pc);
    }
  }

  // Handing a run from an agent to wherever its step sends it keeps one place for each run

  lemma StayLocated(s: System, owner: map<string, Place>, agent: nat, r: string, rec: Record, pc: Pc)
    requires Located(s, owner) && agent in s.agents && RunOf(s.agents[agent]) == r && r in s.db && RunOf(pc) == r
    ensures Located(s.(db := s.db[r := rec], agents := s.agents[agent := pc]), owner[r := With(agent, pc)])
  {
    assert owner[r] == With(agent, s.agents[agent]);
  }

  lemma SendLocated(s: System, owner: map<string, Place>, agent: nat, r: string, rec: Record, job: Job)
    requires Located(s, owner) && agent in s.agents && RunOf(s.agents[agent]) == r && r in s.db && job.runID == r
    ensures Located(s.(db := s.db[r := rec], agents := s.agents - {agent}, channel := s.channel + [job]),
                    owner[r := InChannel(job)])
  {
    assert owner[r] == With(agent, s.agents[agent]);
    assert job !in s.channel;
  }

  lemma DelayLocated(
    s: System, owner: map<string, Place>, agent: nat, r: string, rec: Record, timer: nat, job: Job, delay: int)
    requires Located(s, owner) && agent in s.agents && RunOf(s.agents[agent]) == r && r in s.db && job.runID == r
    requires timer !in s.timers
    ensures Located(s.(db := s.db[r := rec], agents := s.agents - {agent},
                       timers := s.timers[timer := Timer(job, delay)]),
                    owner[r := InTimer(timer, job, delay)])
  {
    assert owner[r] == With(agent, s.agents[agent]);
  }

  lemma LeaveLocated(s: System, owner: map<string, Place>, agent: nat, r: string, rec: Record)
    requires Located(s, owner) && agent in s.agents && RunOf(s.agents[agent]) == r && r in s.db
    ensures Located(s.(db := s.db[r := rec], agents := s.agents - {agent}), owner[r := Nowhere])
  {
    assert owner[r] == With(agent, s.agents[agent]);
  }

  /** The step a move takes leaves its run fitting the place it is sent to. */
  ghost predicate MovesWell(s: System, act: Action)
    requires act.Move? && act.agent in s.agents
  {
    var r := RunOf(s.agents[act.agent]);
    && r in s.db
    && var e := LocalStep(s.workflows, s.db[r], s.agents[act.agent], act.result);
       && e.rec.run.id == r && DestRun(e.dest, r) == r
       && (e.dest.ToTimer? ==> act.timer !in s.timers)
       && RunFits(s.workflows, e.rec, DestPlace(act.agent, act.timer, e.dest))
  }

  lemma AgentOwned(s: System, owner: map<string, Place>, a: nat, httpToolOK: Fields -> bool)
    requires Safe(s, owner, httpToolOK) && a in s.agents
    ensures var r := RunOf(s.agents[a]);
            && r in s.db && s.db[r].run.id == r
            && RecordFits(s.workflows, s.db[r]) && PlaceFits(s.db[r], With(a, s.agents[a]))
  {
    hide RecordFits, PlaceFits;
    var r := RunOf(s.agents[a]);
    assert owner[r] == With(a, s.agents[a]);
    assert RunFits(s.workflows, s.db[r], owner[r]);
  }

  lemma MoveFits(s: System, owner: map<string, Place>, act: Action, httpToolOK: Fields -> bool)
    requires Safe(s, owner, httpToolOK) && act.Move? && Enabled(s, act)
    ensures MovesWell(s, act)
  {
    hide Safe, LocalStep, RecordFits, PcFits, EffectFits, RunFits;
    var pc := s.agents[act.agent];
    var r := RunOf(pc);
    AgentOwned(s, owner, act.agent, httpToolOK);
    LocalStepFits(s.workflows, s.db[r], pc, act.result);
    EffectKeepsRun(s.workflows, s.db[r], LocalStep(s.workflows, s.db[r], pc, act.result), act.agent, act.timer);
    EffectOfRun(s.workflows, s.db[r], LocalStep(s.workflows, s.db[r], pc, act.result));
    OnlySchedulingDelays(s.workflows, s.db[r], pc, act.result);
  }

  lemma EffectOfRun(workflows: Workflows, rec: Record, e: Effect)
    requires EffectFits(workflows, rec, e)
    ensures e.rec.run.id == rec.run.id
  {
    hide RecordFits, DestFits;
  }

  lemma MoveSafe(s: System, owner: map<string, Place>, act: Action, httpToolOK: Fields -> bool)
    returns (owner': map<string, Place>)
    requires Safe(s, owner, httpToolOK) && act.Move? && Enabled(s, act)
    ensures Safe(ApplyMove(s, act), owner', httpToolOK)
  {
    hide Located, Fitting, RunFits, LocalStep;
    MoveFits(s, owner, act, httpToolOK);
    var r := RunOf(s.agents[act.agent]);
    var e := LocalStep(s.workflows, s.db[r], s.agents[act.agent], act.result);
    var place := DestPlace(act.agent, act.timer, e.dest);
    owner' := owner[r := place];
    match e.dest {
      case Stay(pc') => StayLocated(s, owner, act.agent, r, e.rec, pc');
      case ToChannel(job) => SendLocated(s, owner, act.agent, r, e.rec, job);
      case ToTimer(job, delay) => DelayLocated(s, owner, act.agent, r, e.rec, act.timer, job, delay);
      case Leave => LeaveLocated(s, owner, act.agent, r, e.rec);
    }
    FitOne(s, owner, ApplyMove(s, act), r, place, httpToolOK);
  }

  lemma OnlySchedulingDelays(workflows: Workflows, rec: Record, pc: Pc, result: Result<Value, string>)
    ensures LocalStep(workflows, rec, pc, result).dest.ToTimer? <==> pc.Scheduling?
  {
    hide TakeTurn, Resolve, TrimSpace;
  }

  // Clients, the queue and the timers

  lemma ResolvableGrows(workflows: Workflows, id: string, stored: StoredWorkflow, run: Run)
    requires id !in workflows && Resolvable(workflows, run)
    ensures Resolvable(workflows[id := stored], run)
  {
    hide GraphOf, TrimSpace;
  }

  /** Storing a new workflow resolves at least what resolved before. */
  lemma WorkflowSafe(
    s: System, owner: map<string, Place>, id: string, stored: StoredWorkflow, httpToolOK: Fields -> bool)
    requires Safe(s, owner, httpToolOK) && id !in s.workflows && Accepted(stored.definition, httpToolOK)
    ensures Safe(s.(workflows := s.workflows[id := stored]), owner, httpToolOK)
  {
    hide Accepted, PlaceFits, Stored, Resolvable, AttemptsInRange;
    forall r | r in s.db ensures Resolvable(s.workflows[id := stored], s.db[r].run) {
      assert RunFits(s.workflows, s.db[r], owner[r]);
      ResolvableGrows(s.workflows, id, stored, s.db[r].run);
    }
  }

  lemma EnterLocated(s: System, owner: map<string, Place>, agent: nat, r: string, rec: Record, pc: Pc)
    requires Located(s, owner) && agent !in s.agents && RunOf(pc) == r
    requires r in owner ==> owner[r].Nowhere?
    ensures Located(s.(db := s.db[r := rec], agents := s.agents[agent := pc]), owner[r := With(agent, pc)])
  {}

  lemma BeginFitting(
    s: System, owner: map<string, Place>, agent: nat, r: string, rec: Record, pc: Pc, httpToolOK: Fields -> bool)
    requires Fitting(s, owner, httpToolOK) && rec.run.id == r && RecordFits(s.workflows, rec) && PcFits(rec, pc)
    ensures Fitting(s.(db := s.db[r := rec], agents := s.agents[agent := pc]), owner[r := With(agent, pc)], httpToolOK)
  {
    hide RecordFits, PcFits;
    assert RunFits(s.workflows, rec, With(agent, pc));
    FitOne(s, owner, s.(db := s.db[r := rec], agents := s.agents[agent := pc]), r, With(agent, pc), httpToolOK);
  }

  /** In this configuration a stored workflow resolves: validation promised its graph builds. */
  lemma StoredResolves(
    s: System, owner: map<string, Place>, tenantID: string, workflowID: string, httpToolOK: Fields -> bool)
    requires Fitting(s, owner, httpToolOK)
    requires workflowID in s.workflows && s.workflows[workflowID].tenantID == tenantID
    ensures Resolve(s.workflows, tenantID, workflowID).Ok?
  {
    AcceptedBuilds(s.workflows[workflowID].definition, httpToolOK);
  }

  lemma StartAsyncSafe(s: System, owner: map<string, Place>, act: Action, httpToolOK: Fields -> bool)
    returns (owner': map<string, Place>)
    requires Safe(s, owner, httpToolOK) && act.StartAsync? && Enabled(s, act)
    ensures Safe(ApplyStartAsync(s, act), owner', httpToolOK)
  {
    hide Located, Fitting, Resolve, TrimSpace;
    owner' := owner;
    if act.workflowID in s.workflows && s.workflows[act.workflowID].tenantID == act.tenantID {
      StoredResolves(s, owner, act.tenantID, act.workflowID, httpToolOK);
      var run := NewRun(act.runID, act.tenantID, act.workflowID, RunQueued, Async, MAX_ATTEMPTS, act.input);
      var job := Job(act.runID, act.tenantID, act.workflowID, 0, MAX_ATTEMPTS, act.input);
      owner' := owner[act.runID := With(act.agent, Created(job))];
      NewRunUnowned(s, owner, act.runID);
      EnterLocated(s, owner, act.agent, act.runID, CreateRun(run), Created(job));
      BeginFitting(s, owner, act.agent, act.runID, CreateRun(run), Created(job), httpToolOK);
    }
  }

  lemma NewRunUnowned(s: System, owner: map<string, Place>, r: string)
    requires Located(s, owner) && r !in s.db
    ensures r !in owner
  {}

  lemma StartSyncSafe(s: System, owner: map<string, Place>, act: Action, httpToolOK: Fields -> bool)
    returns (owner': map<string, Place>)
    requires Safe(s, owner, httpToolOK) && act.StartSync? && Enabled(s, act)
    ensures Safe(ApplyStartSync(s, act), owner', httpToolOK)
  {
    hide Located, Fitting, Resolve, TrimSpace;
    owner' := owner;
    if act.workflowID in s.workflows && s.workflows[act.workflowID].tenantID == act.tenantID {
      StoredResolves(s, owner, act.tenantID, act.workflowID, httpToolOK);
      var run := NewRun(act.runID, act.tenantID, act.workflowID, RunRunning, Sync, 0, act.input);
      var g := Resolve(s.workflows, act.tenantID, act.workflowID).value;
      var pc := Starting(BySync, run, g, NewState(g.roots));
      owner' := owner[act.runID := With(act.agent, pc)];
      NewRunUnowned(s, owner, act.runID);
      EnterLocated(s, owner, act.agent, act.runID, CreateRun(run), pc);
      BeginFitting(s, owner, act.agent, act.runID, CreateRun(run), pc, httpToolOK);
    }
  }

  /** A waiting run that no call is working on is nowhere: it has no job. */
  lemma WaitingIsNowhere(s: System, owner: map<string, Place>, r: string, httpToolOK: Fields -> bool)
    requires Safe(s, owner, httpToolOK) && r in s.db && s.db[r].pending.Some?
    requires forall a :: a in s.agents ==> RunOf(s.agents[a]) != r
    ensures owner[r] == Nowhere
    ensures RecordFits(s.workflows, s.db[r]) && AtRest(PhaseOf(s.db[r].log), s.db[r].run) && s.db[r].run.id == r
  {
    hide PhaseOf, Resolvable;
    assert RunFits(s.workflows, s.db[r], owner[r]);
    assert IsAt(s, owner[r], r);
  }

  /** What LoadPending hands to a resume fits the waiting record. */
  lemma LoadedFitsWaiting(workflows: Workflows, rec: Record, pc: Pc)
    requires RecordFits(workflows, rec) && AtRest(PhaseOf(rec.log), rec.run) && rec.pending.Some?
    requires pc.Loaded? && pc.steps == rec.steps && pc.pending == rec.pending.value
    requires pc.run == rec.run.(input := pc.run.input)
    ensures PcFits(rec, pc)
  {
    hide PhaseOf, Resolvable;
  }

  lemma StartResumeSafe(s: System, owner: map<string, Place>, act: Action, httpToolOK: Fields -> bool)
    returns (owner': map<string, Place>)
    requires Safe(s, owner, httpToolOK) && act.StartResume? && Enabled(s, act) && Serial(s, act)
    ensures Safe(ApplyStartResume(s, act), owner', httpToolOK)
  {
    hide Located, Fitting, Resolve, RecordFits, PcFits, PhaseOf, MergeInput, AtRest;
    owner' := owner;
    if ApplyStartResume(s, act) != s {
      var rec := s.db[act.runID];
      var input := MergeInput(rec.run.input, act.input);
      var g := Resolve(s.workflows, act.tenantID, rec.run.workflowID).value;
      var pc := Loaded(rec.run.(input := input), rec.steps, rec.pending.value, act.approved, act.comment, g);
      WaitingIsNowhere(s, owner, act.runID, httpToolOK);
      LoadedFitsWaiting(s.workflows, rec, pc);
      owner' := owner[act.runID := With(act.agent, pc)];
      EnterLocated(s, owner, act.agent, act.runID, rec, pc);
      BeginFitting(s, owner, act.agent, act.runID, rec, pc, httpToolOK);
      assert s.db[act.runID := rec] == s.db;
    }
  }

  lemma OwnerFits(s: System, owner: map<string, Place>, r: string, httpToolOK: Fields -> bool)
    requires Fitting(s, owner, httpToolOK) && r in owner
    ensures r in s.db && s.db[r].run.id == r && RunFits(s.workflows, s.db[r], owner[r])
  {}

  /** Between the channel, a timer and a worker that just dequeued it, a job is equally ready. */
  lemma ReadyAnywhere(workflows: Workflows, rec: Record, a: Place, b: Place, job: Job)
    requires RunFits(workflows, rec, a)
    requires a == InChannel(job) || (a.InTimer? && a.job == job)
    requires b == InChannel(job) || (b.With? && b.pc == Holding(job))
    ensures RunFits(workflows, rec, b)
  {
    hide PhaseOf, RecordFits, JobReady;
  }

  lemma DequeueLocated(s: System, owner: map<string, Place>, agent: nat)
    requires Located(s, owner) && agent !in s.agents && s.channel != []
    ensures var job := s.channel[0];
            && job.runID in owner && owner[job.runID] == InChannel(job)
            && Located(s.(channel := s.channel[1..], agents := s.agents[agent := Holding(job)]),
                       owner[job.runID := With(agent, Holding(job))])
  {
    var job := s.channel[0];
    var owner' := owner[job.runID := With(agent, Holding(job))];
    ChannelSplit(s.channel);
    assert owner[job.runID] == InChannel(job);
    assert AgentsLocated(s.agents[agent := Holding(job)], owner');
    assert TimersLocated(s.timers, owner');
    assert ChannelLocated(s.channel[1..], owner');
    hide AgentsLocated, TimersLocated, ChannelLocated;
  }

  lemma ChannelSplit(channel: seq<Job>)
    requires channel != [] && Distinct(channel)
    ensures channel[0] in channel && channel[0] !in channel[1..] && Distinct(channel[1..])
    ensures forall job :: job in channel <==> job == channel[0] || job in channel[1..]
  {
    assert channel == [channel[0]] + channel[1..];
  }

  lemma DequeueSafe(s: System, owner: map<string, Place>, agent: nat, httpToolOK: Fields -> bool)
    returns (owner': map<string, Place>)
    requires Safe(s, owner, httpToolOK) && agent !in s.agents && s.channel != []
    ensures Safe(s.(channel := s.channel[1..], agents := s.agents[agent := Holding(s.channel[0])]), owner', httpToolOK)
  {
    hide Located, Fitting, RunFits;
    var job := s.channel[0];
    var place := With(agent, Holding(job));
    owner' := owner[job.runID := place];
    DequeueLocated(s, owner, agent);
    OwnerFits(s, owner, job.runID, httpToolOK);
    ReadyAnywhere(s.workflows, s.db[job.runID], owner[job.runID], place, job);
    FitOne(s, owner, s.(channel := s.channel[1..], agents := s.agents[agent := Holding(job)]), job.runID, place,
           httpToolOK);
  }

  lemma FireLocated(s: System, owner: map<string, Place>, timer: nat)
    requires Located(s, owner) && timer in s.timers
    ensures var job := s.timers[timer].job;
            && job.runID in owner && owner[job.runID] == InTimer(timer, job, s.timers[timer].delay)
            && Located(s.(channel := s.channel + [job], timers := s.timers - {timer}),
                       owner[job.runID := InChannel(job)])
  {
    assert s.timers[timer].job !in s.channel;
  }

  lemma FireSafe(s: System, owner: map<string, Place>, timer: nat, httpToolOK: Fields -> bool)
    returns (owner': map<string, Place>)
    requires Safe(s, owner, httpToolOK) && timer in s.timers && |s.channel| < s.capacity
    ensures Safe(s.(channel := s.channel + [s.timers[timer].job], timers := s.timers - {timer}), owner', httpToolOK)
  {
    hide Located, Fitting, RunFits, ApplyMove, ApplyStartAsync, ApplyStartSync, ApplyStartResume;
    var job := s.timers[timer].job;
    owner' := owner[job.runID := InChannel(job)];
    FireLocated(s, owner, timer);
    OwnerFits(s, owner, job.runID, httpToolOK);
    ReadyAnywhere(s.workflows, s.db[job.runID], owner[job.runID], InChannel(job), job);
    var s' := s.(channel := s.channel + [job], timers := s.timers - {timer});
    assert s'.db == s.db == s.db[job.runID := s.db[job.runID]];
    FitOne(s, owner, s', job.runID, InChannel(job), httpToolOK);
  }

  /** Every enabled action, with resumes serial, keeps the invariant. */
  lemma ActionSafe(s: System, owner: map<string, Place>, act: Action, httpToolOK: Fields -> bool)
    returns (owner': map<string, Place>)
    requires Safe(s, owner, httpToolOK) && Enabled(s, act) && Serial(s, act)
    ensures Safe(Apply(s, act, httpToolOK), owner', httpToolOK)
  {
    hide Safe, ApplyMove, ApplyStartAsync, ApplyStartSync, ApplyStartResume;
    match act {
      case CreateWorkflow(workflowID, tenantID, d) =>
        owner' := owner;
        if Accepted(d, httpToolOK) {
          WorkflowSafe(s, owner, workflowID, StoredWorkflow(tenantID, d), httpToolOK);
        }
      case StartAsync(_, _, _, _, _) => owner' := StartAsyncSafe(s, owner, act, httpToolOK);
      case StartSync(_, _, _, _, _) => owner' := StartSyncSafe(s, owner, act, httpToolOK);
      case StartResume(_, _, _, _, _, _) => owner' := StartResumeSafe(s, owner, act, httpToolOK);
      case Dequeue(a) => owner' := DequeueSafe(s, owner, a, httpToolOK);
      case Fire(t) => owner' := FireSafe(s, owner, t, httpToolOK);
      case Move(_, _, _) => owner' := MoveSafe(s, owner, act, httpToolOK);
    }
  }

  /** The invariant holds after every history. */
  lemma {:induction false} HistorySafe(capacity: nat, history: seq<Action>, httpToolOK: Fields -> bool)
    returns (owner: map<string, Place>)
    requires After(capacity, history, httpToolOK).Some?
    ensures Safe(After(capacity, history, httpToolOK).value, owner, httpToolOK)
  {
    if history == [] {
      owner := map[];
    } else {
      var front := history[..|history| - 1];
      var before := HistorySafe(capacity, front, httpToolOK);
      hide Safe, Apply, Enabled;
      owner := ActionSafe(After(capacity, front, httpToolOK).value, before, history[|history| - 1], httpToolOK);
    }
  }

  lemma ReachableSafe(s: System, httpToolOK: Fields -> bool) returns (owner: map<string, Place>)
    requires Reachable(s, httpToolOK)
    ensures Safe(s, owner, httpToolOK)
  {
    var capacity, history :| After(capacity, history, httpToolOK) == Some(s);
    owner := HistorySafe(capacity, history, httpToolOK);
  }
}
