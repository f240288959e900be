/** Under every interleaving each run is what its own calls, taken by themselves, have made of it. */
module Interleaving {
  import opened Text
  import opened Values
  import opened Workflow
  import opened Runs
  import opened Protocol
  import opened Tokens
  import opened Safety
  import opened Guarantees
  import opened Solo

  ghost predicate Allowed(rules: Rules, s: System, act: Action)
    requires Enabled(s, act)
  {
    && (act.Move? ==> ResultAllowed(rules, s.agents[act.agent], act.result))
    && (act.StartResume? ==> InputAllowed(rules, act.input))
  }

  /** The state after a history that keeps to the rules. */
  ghost function AfterBy(
    rules: Rules, capacity: nat, history: seq<Action>, httpToolOK: Fields -> bool): Option<System> {
    if history == [] then Some(Initial(capacity))
    else
      var before := AfterBy(rules, capacity, history[..|history| - 1], httpToolOK);
      var act := history[|history| - 1];
      if before.Some? && Enabled(before.value, act) && Serial(before.value, act) && Allowed(rules, before.value, act)
      then Some(Apply(before.value, act, httpToolOK))
      else None
  }

  ghost predicate ReachableBy(rules: Rules, s: System, httpToolOK: Fields -> bool) {
    exists capacity, history :: AfterBy(rules, capacity, history, httpToolOK) == Some(s)
  }

  lemma {:induction false} AfterByIsAfter(rules: Rules, capacity: nat, history: seq<Action>, httpToolOK: Fields -> bool)
    requires AfterBy(rules, capacity, history, httpToolOK).Some?
    ensures Protocol.After(capacity, history, httpToolOK) == AfterBy(rules, capacity, history, httpToolOK)
  {
    if history != [] {
      hide Enabled, Serial, Allowed, Apply;
      AfterByIsAfter(rules, capacity, history[..|history| - 1], httpToolOK);
    }
  }

  lemma {:induction false} AfterIsAfterBy(capacity: nat, history: seq<Action>, httpToolOK: Fields -> bool)
    ensures AfterBy(ANYTHING, capacity, history, httpToolOK) == Protocol.After(capacity, history, httpToolOK)
  {
    if history != [] {
      hide Enabled, Serial, Apply;
      AfterIsAfterBy(capacity, history[..|history| - 1], httpToolOK);
    }
  }

  /** Without rules these are the states of the protocol. */
  lemma ReachableIffByAnything(s: System, httpToolOK: Fields -> bool)
    ensures ReachableBy(ANYTHING, s, httpToolOK) <==> Reachable(s, httpToolOK)
  {
    if ReachableBy(ANYTHING, s, httpToolOK) {
      var capacity, history :| AfterBy(ANYTHING, capacity, history, httpToolOK) == Some(s);
      AfterByIsAfter(ANYTHING, capacity, history, httpToolOK);
    }
    if Reachable(s, httpToolOK) {
      var capacity, history :| Protocol.After(capacity, history, httpToolOK) == Some(s);
      AfterIsAfterBy(capacity, history, httpToolOK);
    }
  }

  // Where a run is

  ghost predicate IsWhere(s: System, r: string, w: Where) {
    match w
    case Busy(pc) => exists a :: a in s.agents && s.agents[a] == pc && RunOf(pc) == r
    case Queued(job) => job.runID == r && (job in s.channel || exists t :: t in s.timers && s.timers[t].job == job)
    case Resting =>
      && (forall a :: a in s.agents ==> RunOf(s.agents[a]) != r)
      && (forall job :: job in s.channel ==> job.runID != r)
      && (forall t :: t in s.timers ==> s.timers[t].job.runID != r)
  }

  function WhereOf(place: Place): Where {
    match place
    case Nowhere => Resting
    case InChannel(job) => Queued(job)
    case InTimer(_, job, _) => Queued(job)
    case With(_, pc) => Busy(pc)
  }

  lemma WhereOwned(s: System, owner: map<string, Place>, r: string, w: Where)
    requires Located(s, owner) && r in owner
    ensures IsWhere(s, r, w) ==> w == WhereOf(owner[r])
    ensures IsWhere(s, r, WhereOf(owner[r]))
  {
    assert IsAt(s, owner[r], r);
    if IsWhere(s, r, w) && w.Queued? && w.job !in s.channel {
      var t :| t in s.timers && s.timers[t].job == w.job;
      assert owner[r] == InTimer(t, w.job, s.timers[t].delay);
    }
  }

  /** The run an action deals with, if any. */
  function Touched(s: System, act: Action): Option<string>
    requires Enabled(s, act)
  {
    match act
    case CreateWorkflow(_, _, _) => None
    case StartAsync(_, r, _, _, _) => Some(r)
    case StartSync(_, r, _, _, _) => Some(r)
    case StartResume(_, _, r, _, _, _) => Some(r)
    case Dequeue(_) => Some(s.channel[0].runID)
    case Fire(_) => None
    case Move(a, _, _) => Some(RunOf(s.agents[a]))
  }

  // What a history tells of one run

  /** What an action is to a run that is already there, if it does anything to it. */
  function Part(s: System, act: Action): Option<Doing>
    requires Enabled(s, act)
  {
    match act
    case Move(_, result, _) => Some(Act(result))
    case Dequeue(_) => Some(Take)
    case StartResume(_, _, _, approved, comment, input) =>
      if ApplyStartResume(s, act) == s then None else Some(ResumeWith(approved, comment, input))
    case _ => None
  }

  /** A run's story once its first call has stored it. */
  function Opening(s: System, agent: nat, r: string): Option<Story> {
    if r in s.db && agent in s.agents then Some(Story(s.db[r], Busy(s.agents[agent]), [])) else None
  }

  ghost function Retold(
    s: System, act: Action, story: Option<Story>, r: string, httpToolOK: Fields -> bool): Option<Story>
    requires Enabled(s, act)
  {
    if Touched(s, act) != Some(r) then story
    else if act.StartAsync? || act.StartSync? then Opening(Apply(s, act, httpToolOK), act.agent, r)
    else if story.Some? && Part(s, act).Some? then Some(ToldOn(story.value, Part(s, act).value))
    else story
  }

  /** The actions of a history that dealt with the run, as that run saw them. */
  ghost function StoryOf(
    rules: Rules, capacity: nat, history: seq<Action>, r: string, httpToolOK: Fields -> bool): Option<Story>
    requires AfterBy(rules, capacity, history, httpToolOK).Some?
  {
    if history == [] then None
    else
      var front := history[..|history| - 1];
      Retold(AfterBy(rules, capacity, front, httpToolOK).value, history[|history| - 1],
             StoryOf(rules, capacity, front, r, httpToolOK), r, httpToolOK)
  }

  // What an action does to the runs it does not deal with

  lemma BusyStays(s: System, s': System, r: string, w: Where, agent: nat)
    requires IsWhere(s, r, w) && w.Busy?
    requires forall a :: a in s.agents && (a != agent || RunOf(s.agents[a]) == r) ==>
               a in s'.agents && s'.agents[a] == s.agents[a]
    ensures IsWhere(s', r, w)
  {
    var a :| a in s.agents && s.agents[a] == w.pc && RunOf(w.pc) == r;
    assert a in s'.agents && s'.agents[a] == w.pc;
  }

  /** A new call by an idle agent, on another run. */
  lemma EnteringLeavesOthers(s: System, r: string, w: Where, db: map<string, Record>, agent: nat, pc: Pc)
    requires IsWhere(s, r, w) && agent !in s.agents && RunOf(pc) != r
    ensures IsWhere(s.(db := db, agents := s.agents[agent := pc]), r, w)
  {
    if w.Busy? {
      BusyStays(s, s.(db := db, agents := s.agents[agent := pc]), r, w, agent);
    }
  }

  lemma StartAsyncLeavesOthers(s: System, act: Action, r: string, w: Where)
    requires Enabled(s, act) && r in s.db && IsWhere(s, r, w) && act.StartAsync? && act.runID != r
    ensures var s' := ApplyStartAsync(s, act);
            r in s'.db && s'.db[r] == s.db[r] && IsWhere(s', r, w)
  {
    hide IsWhere, NewRun, TrimSpace;
    var s' := ApplyStartAsync(s, act);
    if s' != s {
      EnteringLeavesOthers(s, r, w, s'.db, act.agent, s'.agents[act.agent]);
    }
  }

  lemma StartSyncLeavesOthers(s: System, act: Action, r: string, w: Where)
    requires Enabled(s, act) && r in s.db && IsWhere(s, r, w) && act.StartSync? && act.runID != r
    ensures var s' := ApplyStartSync(s, act);
            r in s'.db && s'.db[r] == s.db[r] && IsWhere(s', r, w)
  {
    var s' := ApplyStartSync(s, act);
    StoredOnly(s, s'.db, r, w);
    hide IsWhere, NewRun, TrimSpace, Resolve;
    if s'.agents != s.agents {
      EnteringLeavesOthers(s, r, w, s'.db, act.agent, s'.agents[act.agent]);
    }
  }

  lemma StoredOnly(s: System, db: map<string, Record>, r: string, w: Where)
    requires IsWhere(s, r, w)
    ensures IsWhere(s.(db := db), r, w)
  {}

  lemma StartResumeLeavesOthers(s: System, act: Action, r: string, w: Where)
    requires Enabled(s, act) && r in s.db && IsWhere(s, r, w) && act.StartResume? && act.runID != r
    requires act.runID in s.db ==> s.db[act.runID].run.id == act.runID
    ensures var s' := ApplyStartResume(s, act);
            r in s'.db && s'.db[r] == s.db[r] && IsWhere(s', r, w)
  {
    hide IsWhere, MergeInput, TrimSpace, Resolve;
    var s' := ApplyStartResume(s, act);
    if s' != s {
      EnteringLeavesOthers(s, r, w, s.db, act.agent, s'.agents[act.agent]);
    }
  }

  lemma CreateLeavesAll(s: System, act: Action, r: string, w: Where, httpToolOK: Fields -> bool)
    requires Enabled(s, act) && r in s.db && IsWhere(s, r, w) && act.CreateWorkflow?
    ensures var s' := Apply(s, act, httpToolOK);
            r in s'.db && s'.db[r] == s.db[r] && IsWhere(s', r, w)
  {
    hide Accepted, TrimSpace;
  }

  lemma DequeueLeavesOthers(s: System, act: Action, r: string, w: Where, httpToolOK: Fields -> bool)
    requires Enabled(s, act) && r in s.db && IsWhere(s, r, w) && act.Dequeue? && Touched(s, act) != Some(r)
    ensures var s' := Apply(s, act, httpToolOK);
            r in s'.db && s'.db[r] == s.db[r] && IsWhere(s', r, w)
  {
    assert s.channel == [s.channel[0]] + s.channel[1..];
    assert forall job :: job in s.channel[1..] ==> job in s.channel;
    if w.Busy? {
      BusyStays(s, Apply(s, act, httpToolOK), r, w, act.agent);
    }
  }

  lemma FireLeavesAll(s: System, act: Action, r: string, w: Where, httpToolOK: Fields -> bool)
    requires Enabled(s, act) && r in s.db && IsWhere(s, r, w) && act.Fire?
    ensures var s' := Apply(s, act, httpToolOK);
            r in s'.db && s'.db[r] == s.db[r] && IsWhere(s', r, w)
  {
    var s' := Apply(s, act, httpToolOK);
    if w.Queued? && w.job !in s.channel {
      var t :| t in s.timers && s.timers[t].job == w.job;
      assert t != act.timer ==> t in s'.timers && s'.timers[t].job == w.job;
    }
  }

  lemma CommitLeavesOthers(s: System, agent: nat, timer: nat, at: string, e: Effect, r: string, w: Where)
    requires agent in s.agents && RunOf(s.agents[agent]) == at != r && r in s.db && IsWhere(s, r, w)
    requires DestRun(e.dest, at) == at && (e.dest.ToTimer? ==> timer !in s.timers)
    ensures var s' := Commit(s, agent, timer, at, e);
            r in s'.db && s'.db[r] == s.db[r] && IsWhere(s', r, w)
  {
    var s' := Commit(s, agent, timer, at, e);
    if w.Busy? {
      BusyStays(s, s', r, w, agent);
    } else if w.Queued? && w.job !in s.channel {
      var t :| t in s.timers && s.timers[t].job == w.job;
      assert t in s'.timers && s'.timers[t].job == w.job;
    }
  }

  lemma MoveLeavesOthers(s: System, act: Action, r: string, w: Where, httpToolOK: Fields -> bool)
    requires Enabled(s, act) && r in s.db && IsWhere(s, r, w) && act.Move? && Touched(s, act) != Some(r)
    requires MovesWell(s, act)
    ensures var s' := Apply(s, act, httpToolOK);
            r in s'.db && s'.db[r] == s.db[r] && IsWhere(s', r, w)
  {
    hide LocalStep, RunFits, IsWhere, Commit;
    var at := RunOf(s.agents[act.agent]);
    CommitLeavesOthers(s, act.agent, act.timer, at,
                       LocalStep(s.workflows, s.db[at], s.agents[act.agent], act.result), r, w);
  }

  lemma OthersStay(s: System, owner: map<string, Place>, act: Action, r: string, httpToolOK: Fields -> bool)
    requires Safe(s, owner, httpToolOK) && Enabled(s, act) && r in s.db && Touched(s, act) != Some(r)
    ensures var s' := Apply(s, act, httpToolOK);
            r in s'.db && s'.db[r] == s.db[r] && IsWhere(s', r, WhereOf(owner[r]))
  {
    hide IsWhere, Enabled, MovesWell, WhereOf, RunFits, Accepted, AgentsLocated, TimersLocated, ChannelLocated, IsAt;
    WhereOwned(s, owner, r, Resting);
    var w := WhereOf(owner[r]);
    match act {
      case CreateWorkflow(_, _, _) => CreateLeavesAll(s, act, r, w, httpToolOK);
      case StartAsync(_, _, _, _, _) => StartAsyncLeavesOthers(s, act, r, w);
      case StartSync(_, _, _, _, _) => StartSyncLeavesOthers(s, act, r, w);
      case StartResume(_, _, _, _, _, _) => StartResumeLeavesOthers(s, act, r, w);
      case Dequeue(_) => DequeueLeavesOthers(s, act, r, w, httpToolOK);
      case Fire(_) => FireLeavesAll(s, act, r, w, httpToolOK);
      case Move(_, _, _) =>
        MoveFits(s, owner, act, httpToolOK);
        MoveLeavesOthers(s, act, r, w, httpToolOK);
    }
  }

  // What it does to the run it deals with

  /** The run is there, and what its story says it is. */
  ghost predicate OwnAt(rules: Rules, s: System, r: string, w: Where, story: Option<Story>) {
    r in s.db && IsWhere(s, r, w) && story.Some? && OwnDoing(rules, s.workflows, s.db[r], w, story.value)
  }

  lemma Opens(rules: Rules, s: System, agent: nat, r: string)
    requires r in s.db && agent in s.agents && RunOf(s.agents[agent]) == r
    requires Born(s.workflows, s.db[r], Busy(s.agents[agent]))
    ensures OwnAt(rules, s, r, Busy(s.agents[agent]), Opening(s, agent, r))
  {
    hide Born;
    assert DoAll(rules, s.workflows, s.db[r], Busy(s.agents[agent]), []) == Some((s.db[r], Busy(s.agents[agent])));
  }

  lemma StartAsyncIsOwn(rules: Rules, s: System, owner: map<string, Place>, act: Action, httpToolOK: Fields -> bool)
    returns (w: Where)
    requires Fitting(s, owner, httpToolOK) && Enabled(s, act) && act.StartAsync?
    requires act.runID in ApplyStartAsync(s, act).db
    ensures var s' := ApplyStartAsync(s, act);
            OwnAt(rules, s', act.runID, w, Opening(s', act.agent, act.runID))
  {
    hide Fitting, TrimSpace, Resolve, OwnAt, Opening;
    StoredResolves(s, owner, act.tenantID, act.workflowID, httpToolOK);
    var s' := ApplyStartAsync(s, act);
    Opens(rules, s', act.agent, act.runID);
    w := Busy(s'.agents[act.agent]);
  }

  lemma StartSyncIsOwn(rules: Rules, s: System, owner: map<string, Place>, act: Action, httpToolOK: Fields -> bool)
    returns (w: Where)
    requires Fitting(s, owner, httpToolOK) && Enabled(s, act) && act.StartSync?
    requires act.runID in ApplyStartSync(s, act).db
    ensures var s' := ApplyStartSync(s, act);
            OwnAt(rules, s', act.runID, w, Opening(s', act.agent, act.runID))
  {
    hide Fitting, TrimSpace, Resolve, OwnAt, Opening;
    StoredResolves(s, owner, act.tenantID, act.workflowID, httpToolOK);
    var s' := ApplyStartSync(s, act);
    Opens(rules, s', act.agent, act.runID);
    w := Busy(s'.agents[act.agent]);
  }

  lemma ResumeEnters(s: System, act: Action)
    requires act.StartResume? && act.runID in s.db && s.db[act.runID].run.id == act.runID
    ensures var s' := ApplyStartResume(s, act);
            || s' == s
            || (&& s.db[act.runID].pending.Some? && s'.db == s.db && s'.workflows == s.workflows
                && act.agent in s'.agents && RunOf(s'.agents[act.agent]) == act.runID
                && LoadedFor(s.workflows, s.db[act.runID], act.approved, act.comment, act.input)
                   == Some(s'.agents[act.agent]))
  {
    hide Resolve, MergeInput;
  }

  lemma ResumeIsAllowed(rules: Rules, s: System, owner: map<string, Place>, act: Action, httpToolOK: Fields -> bool)
    requires Safe(s, owner, httpToolOK) && Enabled(s, act) && Serial(s, act) && Allowed(rules, s, act)
    requires act.StartResume?
    requires act.runID in s.db
    ensures s.db[act.runID].run.id == act.runID && act.runID in owner && InputAllowed(rules, act.input)
    ensures forall a :: a in s.agents ==> RunOf(s.agents[a]) != act.runID
  {
    hide RunFits, InputAllowed, AgentsLocated, TimersLocated, ChannelLocated, Accepted, IsAt, TrimSpace;
  }

  lemma DoOneResumes(
    rules: Rules, workflows: Workflows, rec: Record, approved: bool, comment: string, input: Fields, pc: Pc)
    requires LoadedFor(workflows, rec, approved, comment, input) == Some(pc) && InputAllowed(rules, input)
    ensures DoOne(rules, workflows, rec, Resting, ResumeWith(approved, comment, input)) == Some((rec, Busy(pc)))
  {
    hide LoadedFor, InputAllowed;
  }

  lemma AgentIsThere(s: System, agent: nat, r: string)
    requires agent in s.agents && RunOf(s.agents[agent]) == r
    ensures IsWhere(s, r, Busy(s.agents[agent]))
  {
    hide RunOf;
  }

  lemma ResumeGoesOn(
    rules: Rules, s: System, owner: map<string, Place>, act: Action, story: Story, httpToolOK: Fields -> bool)
    returns (w: Where)
    requires Safe(s, owner, httpToolOK) && Enabled(s, act) && Serial(s, act) && Allowed(rules, s, act)
    requires act.StartResume?
    requires act.runID in s.db && ApplyStartResume(s, act) != s
    requires OwnDoing(rules, s.workflows, s.db[act.runID], WhereOf(owner[act.runID]), story)
    ensures OwnAt(rules, ApplyStartResume(s, act), act.runID, w,
                  Some(ToldOn(story, ResumeWith(act.approved, act.comment, act.input))))
  {
    hide *;
    var s', r := ApplyStartResume(s, act), act.runID;
    ResumeIsAllowed(rules, s, owner, act, httpToolOK);
    ResumeEnters(s, act);
    WaitingIsNowhere(s, owner, r, httpToolOK);
    NowhereRests();
    w := Busy(s'.agents[act.agent]);
    DoOneResumes(rules, s.workflows, s.db[r], act.approved, act.comment, act.input, s'.agents[act.agent]);
    OwnDoingContinues(rules, s.workflows, s.db[r], Resting, story, ResumeWith(act.approved, act.comment, act.input),
                      s.db[r], w);
    AgentIsThere(s', act.agent, r);
    OwnThere(rules, s', r, w, ToldOn(story, ResumeWith(act.approved, act.comment, act.input)));
  }

  lemma NowhereRests()
    ensures WhereOf(Nowhere) == Resting
  {}

  lemma OwnThere(rules: Rules, s: System, r: string, w: Where, story: Story)
    requires r in s.db && IsWhere(s, r, w) && OwnDoing(rules, s.workflows, s.db[r], w, story)
    ensures OwnAt(rules, s, r, w, Some(story))
  {
    hide IsWhere, OwnDoing;
  }

  lemma ResumeIsOwn(
    rules: Rules, s: System, owner: map<string, Place>, act: Action, story: Story, httpToolOK: Fields -> bool)
    returns (w: Where)
    requires Safe(s, owner, httpToolOK) && Enabled(s, act) && Serial(s, act) && Allowed(rules, s, act)
    requires act.StartResume?
    requires act.runID in s.db
    requires OwnDoing(rules, s.workflows, s.db[act.runID], WhereOf(owner[act.runID]), story)
    ensures OwnAt(rules, ApplyStartResume(s, act), act.runID, w,
                  Some(if Part(s, act).Some? then ToldOn(story, Part(s, act).value) else story))
  {
    if ApplyStartResume(s, act) == s {
      hide OwnDoing, RunFits, ApplyStartResume, AgentsLocated, TimersLocated, ChannelLocated, Accepted, IsAt, IsWhere,
           WhereOf;
      WhereOwned(s, owner, act.runID, Resting);
      w := WhereOf(owner[act.runID]);
    } else {
      assert Part(s, act) == Some(ResumeWith(act.approved, act.comment, act.input));
      hide *;
      w := ResumeGoesOn(rules, s, owner, act, story, httpToolOK);
    }
  }

  lemma DequeueIsOwn(
    rules: Rules, s: System, owner: map<string, Place>, act: Action, story: Story, httpToolOK: Fields -> bool)
    returns (w: Where)
    requires Located(s, owner) && Enabled(s, act) && act.Dequeue?
    requires var r := s.channel[0].runID;
             r in s.db ==> OwnDoing(rules, s.workflows, s.db[r], WhereOf(owner[r]), story)
    ensures OwnAt(rules, Apply(s, act, httpToolOK), s.channel[0].runID, w, Some(ToldOn(story, Take)))
  {
    hide OwnDoing, AgentsLocated, TimersLocated, ToldOn;
    var s', job := Apply(s, act, httpToolOK), s.channel[0];
    var r := job.runID;
    assert job in s.channel && owner[r] == InChannel(job);
    hide ChannelLocated, Located, IsAt;
    w := Busy(Holding(job));
    OwnDoingContinues(rules, s.workflows, s.db[r], Queued(job), story, Take, s.db[r], w);
    assert act.agent in s'.agents && s'.agents[act.agent] == Holding(job);
  }

  lemma MovedIsWhere(s: System, owner: map<string, Place>, act: Action, httpToolOK: Fields -> bool)
    requires Located(s, owner) && act.Move? && Enabled(s, act) && MovesWell(s, act)
    ensures var (s', r) := (Apply(s, act, httpToolOK), RunOf(s.agents[act.agent]));
            IsWhere(s', r, WhereTo(LocalStep(s.workflows, s.db[r], s.agents[act.agent], act.result).dest))
  {
    hide LocalStep, RunFits;
    var s', r := Apply(s, act, httpToolOK), RunOf(s.agents[act.agent]);
    assert owner[r] == With(act.agent, s.agents[act.agent]);
    var dest := LocalStep(s.workflows, s.db[r], s.agents[act.agent], act.result).dest;
    if dest.Stay? {
      assert act.agent in s'.agents && s'.agents[act.agent] == dest.pc;
    } else if dest.ToTimer? {
      assert act.timer in s'.timers && s'.timers[act.timer].job == dest.job;
    }
  }

  lemma MoveKeepsWorkflows(s: System, act: Action)
    requires act.Move? && act.agent in s.agents
    ensures ApplyMove(s, act).workflows == s.workflows
  {
    hide LocalStep;
  }

  lemma MoveIsOwn(
    rules: Rules, s: System, owner: map<string, Place>, act: Action, story: Story, httpToolOK: Fields -> bool)
    returns (w: Where)
    requires Safe(s, owner, httpToolOK) && Enabled(s, act) && Allowed(rules, s, act) && act.Move?
    requires var r := RunOf(s.agents[act.agent]);
             r in s.db ==> OwnDoing(rules, s.workflows, s.db[r], WhereOf(owner[r]), story)
    ensures OwnAt(rules, ApplyMove(s, act), RunOf(s.agents[act.agent]), w, Some(ToldOn(story, Act(act.result))))
  {
    hide OwnDoing, LocalStep, IsWhere, RecordFits, PcFits, Fitting, Located, ResultAllowed, Resolves,
         MovesWell, ApplyMove,
         ToldOn;
    var pc := s.agents[act.agent];
    var r := RunOf(pc);
    MoveFits(s, owner, act, httpToolOK);
    MovedIsWhere(s, owner, act, httpToolOK);
    AgentFits(s, owner, act.agent, httpToolOK);
    HeldResolves(s.workflows, s.db[r], pc);
    MoveStores(s, act);
    MoveKeepsWorkflows(s, act);
    var e := LocalStep(s.workflows, s.db[r], pc, act.result);
    w := WhereTo(e.dest);
    hide WhereTo;
    OwnDoingContinues(rules, s.workflows, s.db[r], Busy(pc), story, Act(act.result), e.rec, w);
  }

  lemma HeldResolves(workflows: Workflows, rec: Record, pc: Pc)
    requires RecordFits(workflows, rec) && PcFits(rec, pc)
    ensures Resolves(workflows, pc)
  {
    hide PhaseOf, Resolve, TrimSpace, Stored;
  }

  // Any run, any action

  /** As far as there is such a run, it is what its story says. */
  ghost predicate OwnSoFar(rules: Rules, s: System, owner: map<string, Place>, r: string, story: Option<Story>) {
    r in s.db ==>
      r in owner && story.Some? && OwnDoing(rules, s.workflows, s.db[r], WhereOf(owner[r]), story.value)
  }

  lemma BeginningIsOwn(
    rules: Rules, s: System, owner: map<string, Place>, act: Action, r: string, httpToolOK: Fields -> bool)
    returns (w: Where)
    requires Safe(s, owner, httpToolOK) && Enabled(s, act) && Touched(s, act) == Some(r)
    requires (act.StartAsync? || act.StartSync?) && r in Apply(s, act, httpToolOK).db
    ensures var s' := Apply(s, act, httpToolOK);
            OwnAt(rules, s', r, w, Opening(s', act.agent, r))
  {
    hide Located, Fitting, OwnAt, Opening, Accepted, TrimSpace, ApplyStartAsync, ApplyStartSync;
    if act.StartAsync? {
      w := StartAsyncIsOwn(rules, s, owner, act, httpToolOK);
    } else {
      w := StartSyncIsOwn(rules, s, owner, act, httpToolOK);
    }
  }

  lemma TouchedIsOwn(
    rules: Rules, s: System, owner: map<string, Place>, act: Action, r: string, story: Option<Story>,
    httpToolOK: Fields -> bool)
    returns (w: Where)
    requires Safe(s, owner, httpToolOK) && OwnSoFar(rules, s, owner, r, story)
    requires Enabled(s, act) && Serial(s, act) && Allowed(rules, s, act)
    requires Touched(s, act) == Some(r) && r in Apply(s, act, httpToolOK).db
    ensures OwnAt(rules, Apply(s, act, httpToolOK), r, w, Retold(s, act, story, r, httpToolOK))
  {
    hide Located, Fitting, OwnDoing, Enabled, Serial, Allowed, Accepted, OwnAt, ApplyMove,
         ApplyStartAsync, ApplyStartSync,
         ApplyStartResume, Opening;
    if act.StartAsync? || act.StartSync? {
      w := BeginningIsOwn(rules, s, owner, act, r, httpToolOK);
    } else {
      TouchedIsThere(s, owner, act, r, httpToolOK);
      match act {
        case StartResume(_, _, _, _, _, _) => w := ResumeIsOwn(rules, s, owner, act, story.value, httpToolOK);
        case Dequeue(_) => w := DequeueIsOwn(rules, s, owner, act, story.value, httpToolOK);
        case Move(_, _, _) => w := MoveIsOwn(rules, s, owner, act, story.value, httpToolOK);
      }
    }
  }

  /** Only the first call of a run brings it in. */
  lemma TouchedIsThere(s: System, owner: map<string, Place>, act: Action, r: string, httpToolOK: Fields -> bool)
    requires Safe(s, owner, httpToolOK) && Enabled(s, act) && Touched(s, act) == Some(r)
    requires !act.StartAsync? && !act.StartSync? && r in Apply(s, act, httpToolOK).db
    ensures r in s.db
  {
    hide Resolve, MergeInput, LocalStep, RunFits, Accepted;
  }

  lemma WorkflowsOnlyGrow(s: System, act: Action, httpToolOK: Fields -> bool)
    requires Enabled(s, act)
    ensures var s' := Apply(s, act, httpToolOK);
            || s'.workflows == s.workflows
            || (act.CreateWorkflow? && act.workflowID !in s.workflows
                && s'.workflows == s.workflows[act.workflowID := StoredWorkflow(act.tenantID, act.definition)])
  {
    hide LocalStep, Resolve, TrimSpace, Accepted;
  }

  lemma UntouchedIsOwn(
    rules: Rules, s: System, owner: map<string, Place>, act: Action, r: string, story: Option<Story>,
    httpToolOK: Fields -> bool)
    requires Safe(s, owner, httpToolOK) && OwnSoFar(rules, s, owner, r, story) && Enabled(s, act)
    requires Touched(s, act) != Some(r) && r in s.db
    ensures OwnAt(rules, Apply(s, act, httpToolOK), r, WhereOf(owner[r]), Retold(s, act, story, r, httpToolOK))
  {
    hide Safe, OwnDoing, IsWhere, Apply, Touched, WhereOf;
    OthersStay(s, owner, act, r, httpToolOK);
    WorkflowsOnlyGrow(s, act, httpToolOK);
    var s' := Apply(s, act, httpToolOK);
    if s'.workflows != s.workflows {
      OwnDoingGrows(rules, s.workflows, act.workflowID, StoredWorkflow(act.tenantID, act.definition), s.db[r],
                    WhereOf(owner[r]), story.value);
    }
  }

  /** Actions bring in only the run they deal with. */
  lemma NewRunIsTouched(s: System, act: Action, r: string, httpToolOK: Fields -> bool)
    requires Enabled(s, act) && r in Apply(s, act, httpToolOK).db && Touched(s, act) != Some(r)
    ensures r in s.db
  {
    hide LocalStep, Resolve, TrimSpace, Accepted;
  }

  lemma ActionKeepsOwn(
    rules: Rules, s: System, owner: map<string, Place>, act: Action, r: string, story: Option<Story>,
    httpToolOK: Fields -> bool)
    returns (owner': map<string, Place>)
    requires Safe(s, owner, httpToolOK) && OwnSoFar(rules, s, owner, r, story)
    requires Enabled(s, act) && Serial(s, act) && Allowed(rules, s, act)
    ensures Safe(Apply(s, act, httpToolOK), owner', httpToolOK)
    ensures OwnSoFar(rules, Apply(s, act, httpToolOK), owner', r, Retold(s, act, story, r, httpToolOK))
  {
    owner' := ActionSafe(s, owner, act, httpToolOK);
    var s' := Apply(s, act, httpToolOK);
    hide Fitting, OwnDoing, IsWhere, Apply, Enabled, Serial, Allowed, Touched, WhereOf, Retold;
    if r in s'.db {
      if Touched(s, act) == Some(r) {
        var w := TouchedIsOwn(rules, s, owner, act, r, story, httpToolOK);
        WhereOwned(s', owner', r, w);
      } else {
        NewRunIsTouched(s, act, r, httpToolOK);
        UntouchedIsOwn(rules, s, owner, act, r, story, httpToolOK);
        WhereOwned(s', owner', r, WhereOf(owner[r]));
      }
    }
  }

  lemma AfterBySnoc(rules: Rules, capacity: nat, history: seq<Action>, r: string, httpToolOK: Fields -> bool)
    requires history != [] && AfterBy(rules, capacity, history, httpToolOK).Some?
    ensures var (front, act) := (history[..|history| - 1], history[|history| - 1]);
            && AfterBy(rules, capacity, front, httpToolOK).Some?
            && var s := AfterBy(rules, capacity, front, httpToolOK).value;
               && Enabled(s, act) && Serial(s, act) && Allowed(rules, s, act)
               && AfterBy(rules, capacity, history, httpToolOK) == Some(Apply(s, act, httpToolOK))
               && StoryOf(rules, capacity, history, r, httpToolOK)
                  == Retold(s, act, StoryOf(rules, capacity, front, r, httpToolOK), r, httpToolOK)
  {
    hide Enabled, Serial, Allowed, Apply, Retold;
  }

  lemma {:induction false} HistoryKeepsOwn(
    rules: Rules, capacity: nat, history: seq<Action>, r: string, httpToolOK: Fields -> bool)
    returns (owner: map<string, Place>)
    requires AfterBy(rules, capacity, history, httpToolOK).Some?
    ensures Safe(AfterBy(rules, capacity, history, httpToolOK).value, owner, httpToolOK)
    ensures OwnSoFar(rules, AfterBy(rules, capacity, history, httpToolOK).value, owner, r,
                     StoryOf(rules, capacity, history, r, httpToolOK))
  {
    if history == [] {
      owner := map[];
    } else {
      hide *;
      var front, act := history[..|history| - 1], history[|history| - 1];
      AfterBySnoc(rules, capacity, history, r, httpToolOK);
      var before := HistoryKeepsOwn(rules, capacity, front, r, httpToolOK);
      owner := ActionKeepsOwn(rules, AfterBy(rules, capacity, front, httpToolOK).value, before, act, r,
                              StoryOf(rules, capacity, front, r, httpToolOK), httpToolOK);
    }
  }

  /**
   * After every history, whatever the interleaving, every run is what its own part of that history would have
   * made of it if nothing else had ever run: the same results of its nodes, the same jobs taken, the same approvals.
   */
  lemma EveryRunIsOwnDoing(
    rules: Rules, capacity: nat, history: seq<Action>, s: System, r: string, httpToolOK: Fields -> bool)
    returns (w: Where)
    requires AfterBy(rules, capacity, history, httpToolOK) == Some(s) && r in s.db
    ensures IsWhere(s, r, w) && StoryOf(rules, capacity, history, r, httpToolOK).Some?
    ensures var story := StoryOf(rules, capacity, history, r, httpToolOK).value;
            && Born(s.workflows, story.birth, story.start)
            && DoAll(rules, s.workflows, story.birth, story.start, story.doings) == Some((s.db[r], w))
  {
    var owner := HistoryKeepsOwn(rules, capacity, history, r, httpToolOK);
    hide AfterBy, StoryOf, IsWhere, Born, DoAll, WhereOf, Fitting;
    w := WhereOf(owner[r]);
    WhereOwned(s, owner, r, w);
  }

  /** The same for a state whose history is not at hand. */
  lemma RunHasStory(rules: Rules, s: System, r: string, httpToolOK: Fields -> bool) returns (w: Where, story: Story)
    requires ReachableBy(rules, s, httpToolOK) && r in s.db
    ensures IsWhere(s, r, w) && OwnDoing(rules, s.workflows, s.db[r], w, story)
  {
    var capacity, history :| AfterBy(rules, capacity, history, httpToolOK) == Some(s);
    hide AfterBy, StoryOf, IsWhere, Born, DoAll;
    w := EveryRunIsOwnDoing(rules, capacity, history, s, r, httpToolOK);
    story := StoryOf(rules, capacity, history, r, httpToolOK).value;
  }
}
