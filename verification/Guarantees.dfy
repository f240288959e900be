/** What the token invariant means for callers, over every reachable state and every action. */
module Guarantees {
  import opened Text
  import opened Values
  import opened Workflow
  import opened Engine
  import opened Backoff
  import opened Runs
  import opened Protocol
  import opened Tokens
  import opened Safety

  // One live job

  /** The agent holds the run's job: about to enqueue it, working on it, or about to requeue it. */
  predicate CarriesJob(pc: Pc) {
    match pc
    case Created(_) | Announced(_) | Holding(_) | Unresolvable(_, _) | Checked(_, _, _) => true
    case Returned(_, _) | Requeued(_, _) | Scheduling(_, _) => true
    case Starting(mode, _, _, _) => mode.ByJob?
    case Walking(mode, _, _, _, _) => mode.ByJob?
    case Stopped(mode, _, _) => mode.ByJob?
    case Written(mode, _) => mode.ByJob?
    case _ => false
  }

  function InChannelOf(s: System, r: string): set<nat> {
    set i: nat | i < |s.channel| && s.channel[i].runID == r
  }

  function TimersOf(s: System, r: string): set<nat> {
    set t | t in s.timers && s.timers[t].job.runID == r
  }

  function CarriersOf(s: System, r: string): set<nat> {
    set a | a in s.agents && CarriesJob(s.agents[a]) && RunOf(s.agents[a]) == r
  }

  function LiveJobs(s: System, r: string): nat {
    |InChannelOf(s, r)| + |TimersOf(s, r)| + |CarriersOf(s, r)|
  }

  lemma AtMostOne(s: set<nat>)
    requires forall x, y :: x in s && y in s ==> x == y
    ensures |s| <= 1
  {
    if s != {} {
      var x :| x in s;
      assert s == {x};
    }
  }

  /** Where the owner map puts the run, and nowhere else, there can be a job for it. */
  lemma JobsWhereOwned(s: System, owner: map<string, Place>, r: string)
    requires Located(s, owner) && r in owner
    ensures InChannelOf(s, r) != {} ==> owner[r].InChannel?
    ensures TimersOf(s, r) != {} ==> owner[r].InTimer?
    ensures CarriersOf(s, r) != {} ==> owner[r].With? && CarriesJob(owner[r].pc)
    ensures |InChannelOf(s, r)| <= 1 && |TimersOf(s, r)| <= 1 && |CarriersOf(s, r)| <= 1
  {
    forall i | i in InChannelOf(s, r) ensures owner[r] == InChannel(s.channel[i]) {
      assert s.channel[i] in s.channel;
    }
    AtMostOne(InChannelOf(s, r));
    AtMostOne(TimersOf(s, r));
    AtMostOne(CarriersOf(s, r));
  }

  /** A place that holds a job for the run shows up in the count. */
  lemma OwnedIsCounted(s: System, owner: map<string, Place>, r: string)
    requires r in owner && IsAt(s, owner[r], r) && !owner[r].Nowhere?
    requires owner[r].With? ==> CarriesJob(owner[r].pc)
    ensures LiveJobs(s, r) >= 1
  {
    match owner[r] {
      case InChannel(job) =>
        var i :| 0 <= i < |s.channel| && s.channel[i] == job;
        assert i in InChannelOf(s, r);
      case InTimer(t, _, _) => assert t in TimersOf(s, r);
      case With(a, _) => assert a in CarriersOf(s, r);
    }
  }

  /** In every reachable state a run has at most one live job, and a queued run has exactly one. */
  lemma OneLiveJob(s: System, r: string, httpToolOK: Fields -> bool)
    requires Reachable(s, httpToolOK) && r in s.db
    ensures LiveJobs(s, r) <= 1
    ensures s.db[r].run.status == RunQueued ==> LiveJobs(s, r) == 1
  {
    hide Reachable, Located, Fitting, InChannelOf, TimersOf, CarriersOf, CarriesJob, IsAt;
    var owner := ReachableSafe(s, httpToolOK);
    OwnerOf(s, owner, r, httpToolOK);
    JobsWhereOwned(s, owner, r);
    if s.db[r].run.status == RunQueued {
      QueuedIsCarried(s, owner, r, httpToolOK);
      OwnedIsCounted(s, owner, r);
    }
  }

  lemma QueuedIsCarried(s: System, owner: map<string, Place>, r: string, httpToolOK: Fields -> bool)
    requires Safe(s, owner, httpToolOK) && r in s.db && s.db[r].run.status == RunQueued
    ensures !owner[r].Nowhere? && IsAt(s, owner[r], r)
    ensures owner[r].With? ==> CarriesJob(owner[r].pc)
  {
    hide RunFits, CarriesJob;
    assert RunFits(s.workflows, s.db[r], owner[r]);
    QueuedPlace(s.workflows, s.db[r], owner[r]);
  }

  lemma QueuedPlace(workflows: Workflows, rec: Record, place: Place)
    requires RunFits(workflows, rec, place) && rec.run.status == RunQueued
    ensures !place.Nowhere? && (place.With? ==> CarriesJob(place.pc))
  {
    hide PhaseOf, Resolvable, Legal, AllCompleted, AllButLastCompleted;
  }

  /** No two calls work on the same run at once, whatever the interleaving. */
  lemma NoTwoCallsOnOneRun(s: System, a: nat, b: nat, httpToolOK: Fields -> bool)
    requires Reachable(s, httpToolOK)
    requires a in s.agents && b in s.agents && RunOf(s.agents[a]) == RunOf(s.agents[b])
    ensures a == b
  {
    var owner := ReachableSafe(s, httpToolOK);
    assert owner[RunOf(s.agents[a])] == With(a, s.agents[a]);
    assert owner[RunOf(s.agents[b])] == With(b, s.agents[b]);
  }

  /** The waiting job of a queued run, in the channel or a timer, carries the attempts the run has made. */
  lemma WaitingJobAgrees(s: System, job: Job, httpToolOK: Fields -> bool)
    requires Reachable(s, httpToolOK)
    requires job in s.channel || exists t :: t in s.timers && s.timers[t].job == job
    ensures job.runID in s.db && JobReady(s.db[job.runID], job)
  {
    var owner := ReachableSafe(s, httpToolOK);
    hide PhaseOf, Resolvable;
    if job !in s.channel {
      var t :| t in s.timers && s.timers[t].job == job;
      assert owner[job.runID] == InTimer(t, job, s.timers[t].delay);
    }
    assert RunFits(s.workflows, s.db[job.runID], owner[job.runID]);
  }

  /** A job about to be delayed is not delayed yet: no timer holds a job of its run, this one or another. */
  lemma DelayedJobIsNew(s: System, a: nat, t: nat, httpToolOK: Fields -> bool)
    requires Reachable(s, httpToolOK) && a in s.agents && s.agents[a].Scheduling? && t in s.timers
    ensures s.timers[t].job.runID != s.agents[a].job.runID
  {
    hide Reachable, Fitting;
    var owner := ReachableSafe(s, httpToolOK);
    assert owner[s.agents[a].job.runID] == With(a, s.agents[a]);
    assert owner[s.timers[t].job.runID] == InTimer(t, s.timers[t].job, s.timers[t].delay);
  }

  // Retries

  /** The claim of a run counts one more attempt, and never one too many. */
  predicate Claims(stored: Run, pc: Pc) {
    && pc.Checked? && stored.attempt + 1 == pc.run.attempt <= pc.run.maxAttempts == stored.maxAttempts
    && pc.run.status == RunRunning
  }

  lemma HeldJobChecks(workflows: Workflows, rec: Record, pc: Pc)
    requires RecordFits(workflows, rec) && PcFits(rec, pc)
    ensures !pc.Unresolvable?
    ensures pc.Holding? ==>
              CheckJob(workflows, rec, pc.job).Stay? && Claims(rec.run, CheckJob(workflows, rec, pc.job).pc)
  {
    hide PhaseOf, Resolve, TrimSpace, Stored, MergeInput;
  }

  /**
   * The branches for a missing run or workflow and for a graph that does not build are never taken: a held
   * job always claims its run, which raises its attempt count by exactly one.
   */
  lemma AlwaysResolvable(s: System, a: nat, httpToolOK: Fields -> bool)
    requires Reachable(s, httpToolOK) && a in s.agents
    ensures !s.agents[a].Unresolvable? && RunOf(s.agents[a]) in s.db
    ensures s.agents[a].Holding? ==>
              var dest := CheckJob(s.workflows, s.db[RunOf(s.agents[a])], s.agents[a].job);
              dest.Stay? && Claims(s.db[RunOf(s.agents[a])].run, dest.pc)
  {
    var owner := ReachableSafe(s, httpToolOK);
    AgentFits(s, owner, a, httpToolOK);
    hide Safe, RecordFits, PcFits, CheckJob;
    HeldJobChecks(s.workflows, s.db[RunOf(s.agents[a])], s.agents[a]);
  }

  lemma AgentFits(s: System, owner: map<string, Place>, a: nat, httpToolOK: Fields -> bool)
    requires Safe(s, owner, httpToolOK) && a in s.agents
    ensures var r := RunOf(s.agents[a]);
            && r in s.db && owner[r] == With(a, s.agents[a])
            && RecordFits(s.workflows, s.db[r]) && PcFits(s.db[r], s.agents[a])
  {
    hide PcFits, RecordFits;
    AgentOwned(s, owner, a, httpToolOK);
    assert owner[RunOf(s.agents[a])] == With(a, s.agents[a]);
  }

  lemma QueuedHasAttemptsLeft(workflows: Workflows, rec: Record, place: Place)
    requires RunFits(workflows, rec, place)
    ensures 0 <= rec.run.attempt <= rec.run.maxAttempts <= MAX_ATTEMPTS
    ensures rec.run.status == RunQueued ==> rec.run.attempt < rec.run.maxAttempts
  {
    hide PhaseOf, Resolvable, Stored;
  }

  /** Attempts stay within the limit, and a run is requeued only while attempts are left. */
  lemma AttemptsBounded(s: System, r: string, httpToolOK: Fields -> bool)
    requires Reachable(s, httpToolOK) && r in s.db
    ensures 0 <= s.db[r].run.attempt <= s.db[r].run.maxAttempts <= 3
    ensures s.db[r].run.status == RunQueued ==> s.db[r].run.attempt < s.db[r].run.maxAttempts
  {
    var owner := ReachableSafe(s, httpToolOK);
    hide RunFits, Located;
    QueuedHasAttemptsLeft(s.workflows, s.db[r], owner[r]);
  }

  // What the repository and the audit log hold

  /**
   * A pending record exists exactly for waiting runs, whose last step is the waiting node; all earlier
   * steps of waiting, failed and dead-lettered runs and all steps of completed runs are completed. The
   * audit log is a prefix of the protocol's language.
   */
  lemma RecordsConsistent(s: System, r: string, httpToolOK: Fields -> bool)
    requires Reachable(s, httpToolOK) && r in s.db
    ensures Stored(s.db[r])
    ensures var (rec, last) := (s.db[r], |s.db[r].steps| - 1);
            && (rec.pending.Some? <==> rec.run.status == RunWaitingApproval)
            && (rec.run.status == RunWaitingApproval ==>
                  && last >= 0 && rec.steps[last].status == WaitingApproval
                  && rec.steps[last].nodeID == rec.pending.value.waitingNodeID)
            && (rec.run.status in {RunWaitingApproval, RunFailed, RunDeadLetter} ==>
                  forall i :: 0 <= i < last ==> rec.steps[i].status == Completed)
            && (rec.run.status == RunCompleted ==> forall i :: 0 <= i <= last ==> rec.steps[i].status == Completed)
  {
    var owner := ReachableSafe(s, httpToolOK);
    hide PlaceFits, Resolvable, Legal;
    assert RunFits(s.workflows, s.db[r], owner[r]);
  }

  /** The backoffs scheduled for a run so far. */
  lemma BackoffsOfRun(s: System, r: string, httpToolOK: Fields -> bool)
    requires Reachable(s, httpToolOK) && r in s.db
    ensures var delays := Delays(s.db[r].log);
            && |delays| < MAX_ATTEMPTS
            && (forall k :: 0 <= k < |delays| ==> delays[k] == RetryDelay(BASE_BACKOFF, k + 1))
            && Sum(delays) == BASE_BACKOFF * (Pow2(|delays|) - 1)
            && delays <= [50_000_000, 100_000_000]
  {
    RecordsConsistent(s, r, httpToolOK);
    RetriesBounded(s.db[r].log);
    BackoffTotal(Delays(s.db[r].log));
    FirstBackoffs();
  }

  lemma FirstBackoffs()
    ensures RetryDelay(BASE_BACKOFF, 1) == 50_000_000 && RetryDelay(BASE_BACKOFF, 2) == 100_000_000
  {
    DelayExact(2);
    assert Pow2(1) == 2;
  }

  /** The status of a run that no call is working on is what its log recorded last. */
  lemma StatusRecorded(s: System, r: string, httpToolOK: Fields -> bool)
    requires Reachable(s, httpToolOK) && r in s.db
    requires forall a :: a in s.agents ==> RunOf(s.agents[a]) != r
    ensures s.db[r].log != []
    ensures var last := s.db[r].log[|s.db[r].log| - 1];
            match s.db[r].run.status
            case RunQueued => last == RunQueuedEvent || last.RetryScheduledEvent?
            case RunRunning => false
            case RunWaitingApproval => last == RunWaitingEvent
            case RunCompleted => last == RunCompletedEvent
            case RunFailed => last == RunFailedEvent
            case RunDeadLetter => last == RunDeadLetteredEvent
  {
    hide Safe, PhaseOf, Legal, Located, Fitting, Reachable, Resolvable;
    var owner := ReachableSafe(s, httpToolOK);
    OwnerOf(s, owner, r, httpToolOK);
    PhaseLast(s.db[r].log);
  }

  lemma ActionWithinCapacity(s: System, act: Action, httpToolOK: Fields -> bool)
    requires Enabled(s, act) && |s.channel| <= s.capacity
    ensures var s' := Apply(s, act, httpToolOK);
            s'.capacity == s.capacity && |s'.channel| <= s'.capacity
  {
    hide Resolve, TrimSpace, Accepted;
    if act.Move? && RunOf(s.agents[act.agent]) in s.db {
      SendsOnlyAnnounced(s.workflows, s.db[RunOf(s.agents[act.agent])], s.agents[act.agent], act.result);
    }
    hide LocalStep, RunOf;
  }

  lemma SendsOnlyAnnounced(workflows: Workflows, rec: Record, pc: Pc, result: Result<Value, string>)
    ensures LocalStep(workflows, rec, pc, result).dest.ToChannel? ==> pc.Announced?
  {
    hide Resolve, TrimSpace, TakeTurn, RetryDelay, RunOutput, PhaseOf;
  }

  lemma {:induction false} WithinCapacityAfter(capacity: nat, history: seq<Action>, httpToolOK: Fields -> bool)
    requires After(capacity, history, httpToolOK).Some?
    ensures var s := After(capacity, history, httpToolOK).value;
            s.capacity == capacity && |s.channel| <= capacity
  {
    if history != [] {
      hide Apply, Enabled, Serial;
      WithinCapacityAfter(capacity, history[..|history| - 1], httpToolOK);
      ActionWithinCapacity(After(capacity, history[..|history| - 1], httpToolOK).value, history[|history| - 1],
                           httpToolOK);
    }
  }

  /** Clients and timers wait while the channel is full, so it never holds more jobs than it has room for. */
  lemma ChannelWithinCapacity(s: System, httpToolOK: Fields -> bool)
    requires Reachable(s, httpToolOK)
    ensures |s.channel| <= s.capacity
  {
    hide After;
    var capacity, history :| After(capacity, history, httpToolOK) == Some(s);
    WithinCapacityAfter(capacity, history, httpToolOK);
  }

  predicate Final(status: RunStatus) {
    status == RunCompleted || status == RunDeadLetter
  }

  lemma FinalStep(workflows: Workflows, rec: Record, pc: Pc, result: Result<Value, string>)
    requires RecordFits(workflows, rec) && PcFits(rec, pc) && Final(rec.run.status)
    ensures var e := LocalStep(workflows, rec, pc, result);
            e.rec.run == rec.run && e.rec.steps == rec.steps && e.rec.pending == rec.pending
  {
    hide PhaseOf, Resolvable;
  }

  lemma OtherRunsUntouched(s: System, act: Action, r: string, httpToolOK: Fields -> bool)
    requires Enabled(s, act) && r in s.db
    requires act.Move? ==> RunOf(s.agents[act.agent]) != r
    ensures var s' := Apply(s, act, httpToolOK);
            r in s'.db && s'.db[r] == s.db[r]
  {
    hide LocalStep, Resolve, TrimSpace, Accepted;
  }

  lemma MoveStores(s: System, act: Action)
    requires act.Move? && act.agent in s.agents && RunOf(s.agents[act.agent]) in s.db
    ensures var r := RunOf(s.agents[act.agent]);
            && r in ApplyMove(s, act).db
            && ApplyMove(s, act).db[r] == LocalStep(s.workflows, s.db[r], s.agents[act.agent], act.result).rec
  {
    hide LocalStep;
  }

  /** Completed and dead-lettered runs never change again: only audit events may still be appended. */
  lemma FinalIsAbsorbing(s: System, act: Action, r: string, httpToolOK: Fields -> bool)
    requires Reachable(s, httpToolOK) && Enabled(s, act)
    requires r in s.db && Final(s.db[r].run.status)
    ensures var s' := Apply(s, act, httpToolOK);
            && r in s'.db && s'.db[r].run == s.db[r].run
            && s'.db[r].steps == s.db[r].steps && s'.db[r].pending == s.db[r].pending
            && s.db[r].log <= s'.db[r].log
  {
    hide Reachable, Safe, LocalStep, RecordFits, PcFits, ApplyMove, ApplyStartAsync, ApplyStartSync, ApplyStartResume;
    var owner := ReachableSafe(s, httpToolOK);
    if act.Move? && RunOf(s.agents[act.agent]) == r {
      var pc := s.agents[act.agent];
      AgentFits(s, owner, act.agent, httpToolOK);
      FinalStep(s.workflows, s.db[r], pc, act.result);
      LogOnlyGrows(s.workflows, s.db[r], pc, act.result);
      MoveStores(s, act);
    } else {
      OtherRunsUntouched(s, act, r, httpToolOK);
    }
  }

  lemma LogOnlyGrows(workflows: Workflows, rec: Record, pc: Pc, result: Result<Value, string>)
    ensures rec.log <= LocalStep(workflows, rec, pc, result).rec.log
  {
    hide TakeTurn, CheckJob, Thaw, Decision, ResolvedSteps, StoreOutcome, Decide;
    match pc {
      case Stopped(mode, run, outcome) => StoringLogsNothing(rec, mode, run, outcome);
      case Returned(job, run) => DecidingLogsNothing(rec, job, run);
      case _ =>
    }
  }

  lemma StoringLogsNothing(rec: Record, mode: Mode, run: Run, outcome: Outcome)
    ensures StoreOutcome(rec, mode, run, outcome).rec.log == rec.log
  {
    hide RunOutput;
  }

  lemma DecidingLogsNothing(rec: Record, job: Job, run: Run)
    ensures Decide(rec, job, run).rec.log == rec.log
  {
    hide RetryOutput, DeadLetterOutput, RetryDelay;
  }

  // Why resumes have to wait for the call that parked the run

  /**
   * Recording a resolution keeps a waiting run's log legal exactly when no call on the run still has
   * something to record: each is either a resume that has only loaded it, or a worker about to return.
   */
  lemma ResolutionLegalIff(s: System, r: string, nodeID: string, httpToolOK: Fields -> bool)
    requires Reachable(s, httpToolOK) && r in s.db && s.db[r].run.status == RunWaitingApproval
    ensures Legal(s.db[r].log + [ApprovalResolvedEvent(nodeID)]) <==>
            forall a :: a in s.agents && RunOf(s.agents[a]) == r ==> s.agents[a].Loaded? || s.agents[a].Returned?
  {
    hide Safe, RunFits, PhaseOf, Legal, Located, Fitting, Reachable;
    var owner := ReachableSafe(s, httpToolOK);
    OwnerOf(s, owner, r, httpToolOK);
    ResolutionLegal(s.db[r].log, nodeID);
    WaitingPlaces(s.workflows, s.db[r], owner[r]);
  }

  lemma OwnerOf(s: System, owner: map<string, Place>, r: string, httpToolOK: Fields -> bool)
    requires Safe(s, owner, httpToolOK) && r in s.db
    ensures r in owner && RunFits(s.workflows, s.db[r], owner[r]) && IsAt(s, owner[r], r)
    ensures forall a :: a in s.agents && RunOf(s.agents[a]) == r ==> owner[r] == With(a, s.agents[a])
  {
    hide RunFits;
  }

  lemma ResolutionLegal(log: seq<Event>, nodeID: string)
    ensures Legal(log + [ApprovalResolvedEvent(nodeID)]) <==> PhaseOf(log).Parked?
  {
    hide PhaseOf;
    PhaseAppend(log, ApprovalResolvedEvent(nodeID));
  }

  lemma WaitingPlaces(workflows: Workflows, rec: Record, place: Place)
    requires RunFits(workflows, rec, place) && rec.run.status == RunWaitingApproval
    ensures place.Nowhere? || place.With?
    ensures PhaseOf(rec.log).Parked? <==> place.Nowhere? || (place.With? && (place.pc.Loaded? || place.pc.Returned?))
  {
    hide PhaseOf, Resolvable;
  }
}
