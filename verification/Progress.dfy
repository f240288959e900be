/** Every step of a run brings it nearer its end: a run takes boundedly many steps in its life, resumes included. */
module Progress {
  import opened Text
  import opened Values
  import opened Engine
  import opened Backoff
  import opened Runs
  import opened Protocol
  import opened Tokens
  import opened Guarantees
  import opened Solo
  import opened Interleaving
  import opened Tidiness

  /** The nodes of the run's workflow. */
  function NodesOf(workflows: Workflows, run: Run): set<string> {
    var resolved := Resolve(workflows, run.tenantID, run.workflowID);
    if resolved.Ok? then resolved.value.nodes.Keys else {}
  }

  function Unseen(nodes: set<string>, executed: set<string>): nat {
    |nodes - executed|
  }

  // How many steps are left at most: thirteen for a node not yet executed, twelve more for an attempt of a job

  function ToResume(nodes: set<string>, pending: Option<Pending>): nat {
    if pending.Some? then 13 * Unseen(nodes, pending.value.executed) else 0
  }

  function ToRetry(n: nat, attempt: int): nat
    decreases MAX_ATTEMPTS - attempt
  {
    if attempt >= MAX_ATTEMPTS then 0 else 13 * n + 12 + ToRetry(n, attempt + 1)
  }

  function Afterwards(n: nat, mode: Mode, run: Run): nat {
    if mode.ByJob? then ToRetry(n, run.attempt) else 0
  }

  function BusyRank(nodes: set<string>, rec: Record, pc: Pc): int {
    var n := |nodes|;
    match pc
    case Created(job) => ToRetry(n, job.attempt) + 2
    case Announced(job) => ToRetry(n, job.attempt) + 1
    case Holding(job) => ToRetry(n, job.attempt + 1) + 13 * n + 11
    case Unresolvable(_, _) => 0
    case Checked(_, run, _) => ToRetry(n, run.attempt) + 13 * n + 10
    case Starting(mode, run, _, st) => Afterwards(n, mode, run) + 13 * Unseen(nodes, st.executed) + 9
    case Walking(mode, run, _, st, _) => Afterwards(n, mode, run) + 13 * Unseen(nodes, st.executed) + 8
    case Stopped(mode, run, o) => Afterwards(n, mode, run) + ToResume(nodes, PendingOf(o)) + 7
    case Written(mode, run) => Afterwards(n, mode, run) + ToResume(nodes, rec.pending) + 6
    case Returned(_, run) => ToRetry(n, run.attempt) + ToResume(nodes, rec.pending) + 5
    case Requeued(job, _) => ToRetry(n, job.attempt) + 4
    case Scheduling(job, _) => ToRetry(n, job.attempt) + 3
    case DeadLettered(_) => 1
    case Loaded(_, _, pending, _, _, _) => 13 * Unseen(nodes, pending.executed) - 1
    case Rejecting(_, _) => 8
  }

  function Rank(nodes: set<string>, rec: Record, w: Where): int {
    match w
    case Resting => ToResume(nodes, rec.pending)
    case Queued(job) => ToRetry(|nodes|, job.attempt)
    case Busy(pc) => BusyRank(nodes, rec, pc)
  }

  lemma OneLessUnseen(nodes: set<string>, executed: set<string>, id: string)
    requires id in nodes && id !in executed
    ensures Unseen(nodes, executed + {id}) == Unseen(nodes, executed) - 1
  {
    assert nodes - (executed + {id}) == (nodes - executed) - {id};
  }

  // The run keeps its workflow

  lemma StepKeepsNames(workflows: Workflows, rec: Record, pc: Pc, result: Result<Value, string>)
    requires RunFits(workflows, rec, With(0, pc))
    ensures var run := LocalStep(workflows, rec, pc, result).rec.run;
            run.tenantID == rec.run.tenantID && run.workflowID == rec.run.workflowID
  {
    hide PhaseOf, RecordFits, AllCompleted, OutcomeFits, CheckJob, TakeTurn, Thaw, RunOutput, RetryOutput,
         DeadLetterOutput,
         RetryDelay, Decision;
  }

  lemma HandsKnowNodes(workflows: Workflows, rec: Record, pc: Pc)
    requires RunFits(workflows, rec, With(0, pc))
    requires pc.Checked? || pc.Starting? || pc.Walking? || pc.Loaded?
    requires GraphIs(workflows, pc.run, pc.g)
    ensures pc.g.nodes.Keys == NodesOf(workflows, rec.run)
  {
    hide PhaseOf, RecordFits, AllCompleted, Resolve;
  }

  // Step by step

  lemma SendingDrops(workflows: Workflows, rec: Record, pc: Pc, result: Result<Value, string>, nodes: set<string>)
    requires pc.Created? || pc.Announced? || pc.Requeued? || pc.Scheduling? || pc.Rejecting? || pc.Starting?
    ensures var e := LocalStep(workflows, rec, pc, result);
            Rank(nodes, e.rec, WhereTo(e.dest)) < BusyRank(nodes, rec, pc)
  {
    hide ToRetry, Unseen;
  }

  lemma CheckedDrops(workflows: Workflows, rec: Record, pc: Pc, result: Result<Value, string>, nodes: set<string>)
    requires pc.Checked?
    ensures var e := LocalStep(workflows, rec, pc, result);
            Rank(nodes, e.rec, WhereTo(e.dest)) < BusyRank(nodes, rec, pc)
  {
    hide ToRetry;
    assert nodes - {} == nodes;
  }

  lemma HeldClaims(workflows: Workflows, rec: Record, pc: Pc, result: Result<Value, string>)
    requires RunFits(workflows, rec, With(0, pc)) && pc.Holding?
    ensures var e := LocalStep(workflows, rec, pc, result);
            && e.rec == rec && e.dest.Stay? && e.dest.pc.Checked?
            && e.dest.pc.run.attempt == pc.job.attempt + 1
  {
    HeldJobChecks(workflows, rec, pc);
    HeldAttempt(workflows, rec, pc);
    hide RunFits, CheckJob;
  }

  lemma HeldAttempt(workflows: Workflows, rec: Record, pc: Pc)
    requires RunFits(workflows, rec, With(0, pc)) && pc.Holding?
    ensures pc.job.attempt == rec.run.attempt
  {
    hide PhaseOf, RecordFits;
  }

  lemma HoldingDrops(workflows: Workflows, rec: Record, pc: Pc, result: Result<Value, string>, nodes: set<string>)
    requires RunFits(workflows, rec, With(0, pc)) && pc.Holding?
    ensures var e := LocalStep(workflows, rec, pc, result);
            Rank(nodes, e.rec, WhereTo(e.dest)) < BusyRank(nodes, rec, pc)
  {
    hide *;
    HeldClaims(workflows, rec, pc, result);
    CheckedBelow(nodes, rec, pc, LocalStep(workflows, rec, pc, result));
  }

  lemma CheckedBelow(nodes: set<string>, rec: Record, pc: Pc, e: Effect)
    requires pc.Holding? && e.dest.Stay? && e.dest.pc.Checked? && e.dest.pc.run.attempt == pc.job.attempt + 1
    ensures Rank(nodes, e.rec, WhereTo(e.dest)) < BusyRank(nodes, rec, pc)
  {
    hide ToRetry;
  }

  lemma StoringDrops(workflows: Workflows, rec: Record, pc: Pc, result: Result<Value, string>, nodes: set<string>)
    requires pc.Stopped? || pc.Written?
    ensures var e := LocalStep(workflows, rec, pc, result);
            Rank(nodes, e.rec, WhereTo(e.dest)) < BusyRank(nodes, rec, pc)
  {
    hide ToRetry, Unseen, RunOutput, EndEvent;
  }

  lemma ReturnedDrops(workflows: Workflows, rec: Record, pc: Pc, result: Result<Value, string>, nodes: set<string>)
    requires pc.Returned?
    ensures var e := LocalStep(workflows, rec, pc, result);
            Rank(nodes, e.rec, WhereTo(e.dest)) < BusyRank(nodes, rec, pc)
  {
    hide ToRetry, Unseen, RetryOutput, DeadLetterOutput, RetryDelay;
  }

  lemma BuriedDrops(workflows: Workflows, rec: Record, pc: Pc, result: Result<Value, string>, nodes: set<string>)
    requires RunFits(workflows, rec, With(0, pc)) && pc.DeadLettered?
    ensures var e := LocalStep(workflows, rec, pc, result);
            Rank(nodes, e.rec, WhereTo(e.dest)) < BusyRank(nodes, rec, pc)
  {
    hide PhaseOf, Resolvable, Legal, ToRetry, Unseen;
  }

  lemma TurnDrops(nodes: set<string>, pc: Pc, result: Result<Value, string>)
    requires pc.Walking? && pc.st.queue != [] && pc.g.Valid() && "" !in pc.g.nodes && Neat(pc.st, pc.queued)
    requires pc.g.nodes.Keys == nodes
    ensures var turn := TakeTurn(pc.g, pc.st, pc.queued, ReturnOf(pc.g, pc.st, result), []);
            if turn.Stop? then ToResume(nodes, PendingOf(turn.outcome)) <= 13 * Unseen(nodes, pc.st.executed)
            else Unseen(nodes, turn.st.executed) < Unseen(nodes, pc.st.executed)
  {
    hide *;
    var turn := TakeTurn(pc.g, pc.st, pc.queued, ReturnOf(pc.g, pc.st, result), []);
    if turn.Go? {
      GoStaysNeat(pc.g, pc.st, pc.queued, result);
      OneLessUnseen(nodes, pc.st.executed, pc.st.queue[0]);
    } else {
      StopParks(pc.g, pc.st, pc.queued, ReturnOf(pc.g, pc.st, result));
      ResumeAtMost(nodes, turn.outcome, pc.st.executed);
    }
  }

  lemma ResumeAtMost(nodes: set<string>, o: Outcome, executed: set<string>)
    requires o.Paused? ==> o.pending.executed == executed
    ensures ToResume(nodes, PendingOf(o)) <= 13 * Unseen(nodes, executed)
  {
    hide Unseen;
  }

  lemma WalkedDrops(nodes: set<string>, rec: Record, pc: Pc, turn: Turn)
    requires pc.Walking?
    requires if turn.Stop? then ToResume(nodes, PendingOf(turn.outcome)) <= 13 * Unseen(nodes, pc.st.executed)
             else Unseen(nodes, turn.st.executed) < Unseen(nodes, pc.st.executed)
    ensures BusyRank(nodes, rec, if turn.Stop? then Stopped(pc.mode, pc.run, turn.outcome)
                                 else Walking(pc.mode, pc.run, pc.g, turn.st, turn.queued))
            < BusyRank(nodes, rec, pc)
  {
    hide ToRetry, Unseen, ToResume;
  }

  lemma WalkingDrops(
    workflows: Workflows, rec: Record, pc: Pc, result: Result<Value, string>, nodes: set<string>,
    httpToolOK: Fields -> bool)
    requires AllAccepted(workflows, httpToolOK) && RunFits(workflows, rec, With(0, pc))
    requires TidyAt(workflows, rec, Busy(pc))
    requires pc.Walking? && nodes == NodesOf(workflows, rec.run)
    ensures var e := LocalStep(workflows, rec, pc, result);
            Rank(nodes, e.rec, WhereTo(e.dest)) < BusyRank(nodes, rec, pc)
  {
    hide *;
    var e := LocalStep(workflows, rec, pc, result);
    WalkingMeans(workflows, rec, pc);
    ResolvedPromised(workflows, pc.run, pc.g, httpToolOK);
    PromisedMeans(pc.g);
    HandsKnowNodes(workflows, rec, pc);
    WalkingIsWalkStep(workflows, rec, pc, result);
    if pc.st.queue == [] {
      ResumeAtMost(nodes, Finished(pc.st), pc.st.executed);
      WalkedDrops(nodes, e.rec, pc, Stop(Finished(pc.st)));
    } else {
      WalkGoes(rec, pc, result);
      TurnDrops(nodes, pc, result);
      WalkedDrops(nodes, e.rec, pc, TakeTurn(pc.g, pc.st, pc.queued, ReturnOf(pc.g, pc.st, result), []));
    }
    RankOfStay(nodes, e, rec, pc);
  }

  /** While the loop runs the rank does not look at what is stored. */
  lemma RankOfStay(nodes: set<string>, e: Effect, rec: Record, pc: Pc)
    requires pc.Walking? && e.dest.Stay?
    ensures Rank(nodes, e.rec, WhereTo(e.dest)) == BusyRank(nodes, e.rec, e.dest.pc)
    ensures BusyRank(nodes, e.rec, pc) == BusyRank(nodes, rec, pc)
  {
    hide ToRetry, Unseen;
  }

  lemma LoadedMeans(workflows: Workflows, rec: Record, pc: Pc)
    requires TidyAt(workflows, rec, Busy(pc)) && pc.Loaded?
    ensures GraphIs(workflows, pc.run, pc.g) && ParkedInOrder(pc.g, pc.steps, pc.pending)
  {
    hide GraphIs, ParkedInOrder, BooksFit;
  }

  lemma ResolutionDrops(nodes: set<string>, rec: Record, pc: Pc)
    requires pc.Loaded? && pc.steps != [] && pc.steps[|pc.steps| - 1].nodeID == pc.pending.waitingNodeID
    requires var st := Thaw(pc.steps, pc.pending, Decision(pc.approved, pc.comment));
             Unseen(nodes, st.executed) == Unseen(nodes, pc.pending.executed) - 1
    ensures var e := ResolveApproval(rec, pc);
            Rank(nodes, e.rec, WhereTo(e.dest)) < BusyRank(nodes, rec, pc)
  {
    hide ToRetry, Unseen, Decision, Thaw;
  }

  lemma LoadedDrops(
    workflows: Workflows, rec: Record, pc: Pc, result: Result<Value, string>, nodes: set<string>,
    httpToolOK: Fields -> bool)
    requires AllAccepted(workflows, httpToolOK) && RunFits(workflows, rec, With(0, pc))
    requires TidyAt(workflows, rec, Busy(pc))
    requires pc.Loaded? && nodes == NodesOf(workflows, rec.run)
    ensures var e := LocalStep(workflows, rec, pc, result);
            Rank(nodes, e.rec, WhereTo(e.dest)) < BusyRank(nodes, rec, pc)
  {
    hide *;
    LoadedMeans(workflows, rec, pc);
    LoadedWaits(workflows, rec, pc);
    ResolvedPromised(workflows, pc.run, pc.g, httpToolOK);
    PromisedMeans(pc.g);
    HandsKnowNodes(workflows, rec, pc);
    ThawInOrder(pc.g, pc.steps, pc.pending, Decision(pc.approved, pc.comment));
    OneLessUnseen(nodes, pc.pending.executed, pc.pending.waitingNodeID);
    ResolutionDrops(nodes, rec, pc);
    LoadedIsResolved(workflows, rec, pc, result);
  }

  lemma LoadedIsResolved(workflows: Workflows, rec: Record, pc: Pc, result: Result<Value, string>)
    requires pc.Loaded?
    ensures LocalStep(workflows, rec, pc, result) == ResolveApproval(rec, pc)
  {
    hide ResolveApproval;
  }

  lemma ActDrops(
    workflows: Workflows, rec: Record, pc: Pc, result: Result<Value, string>, nodes: set<string>,
    httpToolOK: Fields -> bool)
    requires AllAccepted(workflows, httpToolOK) && RunFits(workflows, rec, With(0, pc))
    requires TidyAt(workflows, rec, Busy(pc))
    requires nodes == NodesOf(workflows, rec.run)
    ensures var e := LocalStep(workflows, rec, pc, result);
            Rank(nodes, e.rec, WhereTo(e.dest)) < BusyRank(nodes, rec, pc)
  {
    hide *;
    NeverUnresolvable(workflows, rec, pc);
    match pc {
      case Holding(_) => HoldingDrops(workflows, rec, pc, result, nodes);
      case Checked(_, _, _) => CheckedDrops(workflows, rec, pc, result, nodes);
      case Walking(_, _, _, _, _) => WalkingDrops(workflows, rec, pc, result, nodes, httpToolOK);
      case Stopped(_, _, _) => StoringDrops(workflows, rec, pc, result, nodes);
      case Written(_, _) => StoringDrops(workflows, rec, pc, result, nodes);
      case Returned(_, _) => ReturnedDrops(workflows, rec, pc, result, nodes);
      case DeadLettered(_) => BuriedDrops(workflows, rec, pc, result, nodes);
      case Loaded(_, _, _, _, _, _) => LoadedDrops(workflows, rec, pc, result, nodes, httpToolOK);
      case _ => SendingDrops(workflows, rec, pc, result, nodes);
    }
  }

  lemma HandingDrops(
    rules: Rules, workflows: Workflows, rec: Record, w: Where, doing: Doing, nodes: set<string>)
    requires RunFits(workflows, rec, PlaceIn(w)) && !w.Busy? && DoOne(rules, workflows, rec, w, doing).Some?
    ensures var (rec', w') := DoOne(rules, workflows, rec, w, doing).value;
            Rank(nodes, rec', w') < Rank(nodes, rec, w) && rec' == rec
  {
    hide PhaseOf, RecordFits, Unseen, MergeInput, Resolve, InputAllowed;
  }

  lemma DoOneDrops(
    rules: Rules, workflows: Workflows, rec: Record, w: Where, doing: Doing, nodes: set<string>,
    httpToolOK: Fields -> bool)
    requires AllAccepted(workflows, httpToolOK) && RunFits(workflows, rec, PlaceIn(w)) && TidyAt(workflows, rec, w)
    requires DoOne(rules, workflows, rec, w, doing).Some? && nodes == NodesOf(workflows, rec.run)
    ensures var (rec', w') := DoOne(rules, workflows, rec, w, doing).value;
            && Rank(nodes, rec', w') < Rank(nodes, rec, w)
            && rec'.run.tenantID == rec.run.tenantID && rec'.run.workflowID == rec.run.workflowID
  {
    hide AllAccepted, TidyAt, RunFits, LocalStep, ResultAllowed, Resolves, LoadedFor, BusyRank, NodesOf;
    if w.Busy? {
      ActDrops(workflows, rec, w.pc, doing.result, nodes, httpToolOK);
      StepKeepsNames(workflows, rec, w.pc, doing.result);
    } else {
      HandingDrops(rules, workflows, rec, w, doing, nodes);
    }
  }

  lemma BornRank(workflows: Workflows, rec: Record, w: Where)
    requires Born(workflows, rec, w)
    ensures var nodes := NodesOf(workflows, rec.run);
            Rank(nodes, rec, w) <= 39 * |nodes| + 38
  {
    hide Resolve, TrimSpace;
    var nodes := NodesOf(workflows, rec.run);
    assert nodes - {} == nodes;
    RetriesAhead(|nodes|);
  }

  lemma RetriesAhead(n: nat)
    ensures ToRetry(n, 0) == 39 * n + 36
  {
    assert ToRetry(n, 2) == 13 * n + 12;
    assert ToRetry(n, 1) == 26 * n + 24;
  }

  lemma SameNodes(workflows: Workflows, run: Run, other: Run)
    requires run.tenantID == other.tenantID && run.workflowID == other.workflowID
    ensures NodesOf(workflows, run) == NodesOf(workflows, other)
  {}

  lemma {:induction false} DoAllDrops(
    rules: Rules, workflows: Workflows, birth: Record, start: Where, doings: seq<Doing>, httpToolOK: Fields -> bool)
    requires AllAccepted(workflows, httpToolOK)
    requires Born(workflows, birth, start) && DoAll(rules, workflows, birth, start, doings).Some?
    ensures var ((rec, w), nodes) := (DoAll(rules, workflows, birth, start, doings).value,
                                          NodesOf(workflows, birth.run));
            && |doings| + Rank(nodes, rec, w) <= 39 * |nodes| + 38
            && rec.run.tenantID == birth.run.tenantID && rec.run.workflowID == birth.run.workflowID
  {
    if doings == [] {
      BornRank(workflows, birth, start);
    } else {
      hide *;
      var k := |doings| - 1;
      var nodes := NodesOf(workflows, birth.run);
      DoAllSnoc(rules, workflows, birth, start, doings);
      DoAllFits(rules, workflows, birth, start, doings[..k]);
      DoAllTidy(rules, workflows, birth, start, doings[..k], httpToolOK);
      DoAllDrops(rules, workflows, birth, start, doings[..k], httpToolOK);
      var (rec, w) := DoAll(rules, workflows, birth, start, doings[..k]).value;
      SameNodes(workflows, birth.run, rec.run);
      DoOneDrops(rules, workflows, rec, w, doings[k], nodes, httpToolOK);
    }
  }

  // The end

  lemma RankNotNegative(
    workflows: Workflows, rec: Record, w: Where, httpToolOK: Fields -> bool)
    requires AllAccepted(workflows, httpToolOK) && RunFits(workflows, rec, PlaceIn(w)) && TidyAt(workflows, rec, w)
    ensures Rank(NodesOf(workflows, rec.run), rec, w) >= 0
  {
    assert w.Busy? ==> PlaceIn(w) == With(0, w.pc);
    hide *;
    if w.Busy? && w.pc.Loaded? {
      var pc := w.pc;
      LoadedMeans(workflows, rec, pc);
      ResolvedPromised(workflows, pc.run, pc.g, httpToolOK);
      PromisedMeans(pc.g);
      HandsKnowNodes(workflows, rec, pc);
      ThawInOrder(pc.g, pc.steps, pc.pending, Null);
      OneLessUnseen(NodesOf(workflows, rec.run), pc.pending.executed, pc.pending.waitingNodeID);
      LoadedRank(NodesOf(workflows, rec.run), rec, pc);
    } else {
      RankNatural(NodesOf(workflows, rec.run), rec, w);
    }
  }

  lemma RankNatural(nodes: set<string>, rec: Record, w: Where)
    requires !(w.Busy? && w.pc.Loaded?)
    ensures Rank(nodes, rec, w) >= 0
  {
    hide ToRetry, Unseen;
  }

  lemma LoadedRank(nodes: set<string>, rec: Record, pc: Pc)
    requires pc.Loaded? && Unseen(nodes, pc.pending.executed) >= 1
    ensures Rank(nodes, rec, Busy(pc)) >= 0
  {
    hide Unseen;
  }

  /**
   * No run goes on for ever: under every interleaving, whatever its nodes return and however often it is resumed
   * and retried, the steps its calls have taken and the jobs taken for it are at most 39 for each node of its
   * workflow and 38 more.
   */
  lemma EveryRunEnds(
    rules: Rules, capacity: nat, history: seq<Action>, s: System, r: string, httpToolOK: Fields -> bool)
    requires AfterBy(rules, capacity, history, httpToolOK) == Some(s) && r in s.db
    ensures var story := StoryOf(rules, capacity, history, r, httpToolOK);
            story.Some? && |story.value.doings| <= 39 * |NodesOf(s.workflows, s.db[r].run)| + 38
  {
    hide *;
    AcceptedAfter(rules, capacity, history, s, httpToolOK);
    var w := EveryRunIsOwnDoing(rules, capacity, history, s, r, httpToolOK);
    var story := StoryOf(rules, capacity, history, r, httpToolOK).value;
    DoAllDrops(rules, s.workflows, story.birth, story.start, story.doings, httpToolOK);
    DoAllFits(rules, s.workflows, story.birth, story.start, story.doings);
    DoAllTidy(rules, s.workflows, story.birth, story.start, story.doings, httpToolOK);
    SameNodes(s.workflows, story.birth.run, s.db[r].run);
    RankNotNegative(s.workflows, s.db[r], w, httpToolOK);
  }

  /** And it stops nowhere else: something can be done to it exactly unless it is at rest with no approval pending. */
  lemma StopsAtRest(workflows: Workflows, rec: Record, w: Where)
    requires RunFits(workflows, rec, PlaceIn(w))
    ensures (exists doing :: DoOne(ANYTHING, workflows, rec, w, doing).Some?) <==> !w.Resting? || rec.pending.Some?
  {
    match w {
      case Busy(pc) =>
        HeldResolves(workflows, rec, pc);
        hide LocalStep, RunFits, Resolves;
        assert DoOne(ANYTHING, workflows, rec, w, Act(Ok(Null))).Some?;
      case Queued(job) =>
        assert DoOne(ANYTHING, workflows, rec, w, Take).Some?;
      case Resting =>
        hide Stored, Resolve, MergeInput, PhaseOf;
        if rec.pending.Some? {
          assert DoOne(ANYTHING, workflows, rec, w, ResumeWith(true, "", map[])).Some?;
        }
    }
  }
}
