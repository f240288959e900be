/** What one run can do by itself, it can do in the whole system: the stories of runs are all those of `Solo`. */
module Stories {
  import opened Text
  import opened Values
  import opened Workflow
  import opened Graphs
  import opened Runs
  import opened Protocol
  import opened Tokens
  import opened Safety
  import opened Solo
  import opened Interleaving

  lemma UnusedKey<T>(m: map<nat, T>) returns (k: nat)
    ensures k !in m
  {
    k := Above(m.Keys);
  }

  lemma Above(s: set<nat>) returns (k: nat)
    ensures forall x :: x in s ==> x < k
  {
    if s == {} {
      k := 0;
    } else {
      var x :| x in s;
      k := Above(s - {x});
      assert forall y :: y in s ==> y == x || y in s - {x};
      if k <= x {
        k := x + 1;
      }
    }
  }

  /** There is room in the channel, and in it stands at most the run's own job. */
  predicate Free(s: System, r: string) {
    s.capacity > 0 && forall job :: job in s.channel ==> job.runID == r
  }

  /** The history leaves the system so, the run where it is, and tells this story of it. */
  ghost predicate Plays(
    rules: Rules, capacity: nat, history: seq<Action>, s: System, r: string, w: Where, story: Story,
    httpToolOK: Fields -> bool)
  {
    && AfterBy(rules, capacity, history, httpToolOK) == Some(s)
    && r in s.db && IsWhere(s, r, w) && Free(s, r)
    && StoryOf(rules, capacity, history, r, httpToolOK) == Some(story)
  }

  lemma PlaysMeans(
    rules: Rules, capacity: nat, history: seq<Action>, s: System, r: string, w: Where, story: Story,
    httpToolOK: Fields -> bool)
    requires Plays(rules, capacity, history, s, r, w, story, httpToolOK)
    ensures AfterBy(rules, capacity, history, httpToolOK) == Some(s) && r in s.db && IsWhere(s, r, w) && Free(s, r)
    ensures StoryOf(rules, capacity, history, r, httpToolOK) == Some(story)
  {
    hide AfterBy, StoryOf, IsWhere, Free;
  }

  lemma OneMore(
    rules: Rules, capacity: nat, history: seq<Action>, act: Action, s: System, r: string, w: Where, story: Story,
    httpToolOK: Fields -> bool)
    requires AfterBy(rules, capacity, history, httpToolOK) == Some(s)
    requires Enabled(s, act) && Serial(s, act) && Allowed(rules, s, act)
    requires Retold(s, act, StoryOf(rules, capacity, history, r, httpToolOK), r, httpToolOK) == Some(story)
    requires var s' := Apply(s, act, httpToolOK); r in s'.db && IsWhere(s', r, w) && Free(s', r)
    ensures Plays(rules, capacity, history + [act], Apply(s, act, httpToolOK), r, w, story, httpToolOK)
  {
    hide Enabled, Serial, Allowed, Apply, Retold, IsWhere, Free;
    assert (history + [act])[..|history|] == history;
  }

  lemma SafeAfter(rules: Rules, capacity: nat, history: seq<Action>, s: System, httpToolOK: Fields -> bool)
    returns (owner: map<string, Place>)
    requires AfterBy(rules, capacity, history, httpToolOK) == Some(s)
    ensures Safe(s, owner, httpToolOK)
  {
    hide Safe;
    AfterByIsAfter(rules, capacity, history, httpToolOK);
    owner := HistorySafe(capacity, history, httpToolOK);
  }

  /** If only the run's own job may stand in the channel, it is empty or the run is there. */
  lemma ChannelOurs(s: System, owner: map<string, Place>, r: string)
    requires Located(s, owner) && Free(s, r) && r in owner
    ensures s.channel == [] || owner[r].InChannel?
  {
    if s.channel != [] {
      assert s.channel[0] in s.channel;
    }
  }

  // Acting

  lemma MoveEnabled(s: System, owner: map<string, Place>, r: string, a: nat, t: nat, result: Result<Value, string>)
    requires Located(s, owner) && Free(s, r) && a in s.agents && RunOf(s.agents[a]) == r && t !in s.timers
    ensures Enabled(s, Move(a, result, t))
  {
    assert owner[r] == With(a, s.agents[a]);
    ChannelOurs(s, owner, r);
  }

  lemma MoveDone(s: System, act: Action, r: string)
    requires act.Move? && act.agent in s.agents && RunOf(s.agents[act.agent]) == r && MovesWell(s, act) && Free(s, r)
    ensures var (s', e) := (ApplyMove(s, act), LocalStep(s.workflows, s.db[r], s.agents[act.agent], act.result));
            s'.db == s.db[r := e.rec] && s'.workflows == s.workflows && Free(s', r)
  {
    hide LocalStep, RunFits;
  }

  lemma BusyAgent(s: System, r: string, pc: Pc) returns (a: nat)
    requires IsWhere(s, r, Busy(pc))
    ensures a in s.agents && s.agents[a] == pc && RunOf(pc) == r
  {
    a :| a in s.agents && s.agents[a] == pc && RunOf(pc) == r;
  }

  lemma DoOneActs(rules: Rules, workflows: Workflows, rec: Record, pc: Pc, result: Result<Value, string>)
    requires DoOne(rules, workflows, rec, Busy(pc), Act(result)).Some?
    ensures ResultAllowed(rules, pc, result)
    ensures var e := LocalStep(workflows, rec, pc, result);
            DoOne(rules, workflows, rec, Busy(pc), Act(result)) == Some((e.rec, WhereTo(e.dest)))
  {
    hide ResultAllowed, LocalStep, WhereTo, Resolves;
  }

  lemma MoveIsAct(
    rules: Rules, s: System, act: Action, r: string, story: Story, httpToolOK: Fields -> bool)
    requires act.Move? && Enabled(s, act) && RunOf(s.agents[act.agent]) == r
    requires ResultAllowed(rules, s.agents[act.agent], act.result)
    ensures Serial(s, act) && Allowed(rules, s, act)
    ensures Retold(s, act, Some(story), r, httpToolOK) == Some(ToldOn(story, Act(act.result)))
  {
    hide ResultAllowed, RunOf, Apply, Enabled;
  }

  lemma ActHappens(
    rules: Rules, capacity: nat, history: seq<Action>, s: System, r: string, pc: Pc, story: Story,
    result: Result<Value, string>, httpToolOK: Fields -> bool)
    returns (history': seq<Action>, s': System)
    requires Plays(rules, capacity, history, s, r, Busy(pc), story, httpToolOK)
    requires DoOne(rules, s.workflows, s.db[r], Busy(pc), Act(result)).Some?
    ensures var (rec', w') := DoOne(rules, s.workflows, s.db[r], Busy(pc), Act(result)).value;
            && Plays(rules, capacity, history', s', r, w', ToldOn(story, Act(result)), httpToolOK)
            && s'.db == s.db[r := rec'] && s'.workflows == s.workflows
  {
    hide *;
    PlaysMeans(rules, capacity, history, s, r, Busy(pc), story, httpToolOK);
    var owner := SafeAfter(rules, capacity, history, s, httpToolOK);
    var a := BusyAgent(s, r, pc);
    var t := UnusedKey(s.timers);
    var act := Move(a, result, t);
    SafeMeans(s, owner, httpToolOK);
    MoveEnabled(s, owner, r, a, t, result);
    MoveFits(s, owner, act, httpToolOK);
    MoveDone(s, act, r);
    MovedIsWhere(s, owner, act, httpToolOK);
    MoveIsApplied(s, act, httpToolOK);
    DoOneActs(rules, s.workflows, s.db[r], pc, result);
    MoveIsAct(rules, s, act, r, story, httpToolOK);
    history', s' := history + [act], Apply(s, act, httpToolOK);
    OneMore(rules, capacity, history, act, s, r, WhereTo(LocalStep(s.workflows, s.db[r], pc, result).dest),
            ToldOn(story, Act(result)), httpToolOK);
  }

  lemma MoveIsApplied(s: System, act: Action, httpToolOK: Fields -> bool)
    requires act.Move? && Enabled(s, act)
    ensures Apply(s, act, httpToolOK) == ApplyMove(s, act)
  {
    hide ApplyMove;
  }

  lemma SafeMeans(s: System, owner: map<string, Place>, httpToolOK: Fields -> bool)
    requires Safe(s, owner, httpToolOK)
    ensures Located(s, owner) && owner.Keys == s.db.Keys
    ensures forall r :: r in s.db ==> s.db[r].run.id == r
  {
    hide RunFits, IsAt, AgentsLocated, TimersLocated, ChannelLocated, Accepted;
  }

  // Taking the job, from a timer or from the channel

  lemma FireEnabled(s: System, owner: map<string, Place>, r: string, t: nat)
    requires Located(s, owner) && Free(s, r) && t in s.timers && s.timers[t].job.runID == r
    ensures Enabled(s, Fire(t))
  {
    assert owner[r] == InTimer(t, s.timers[t].job, s.timers[t].delay);
    ChannelOurs(s, owner, r);
  }

  lemma FireIsQuiet(
    rules: Rules, s: System, t: nat, r: string, story: Option<Story>, httpToolOK: Fields -> bool)
    requires Enabled(s, Fire(t)) && s.timers[t].job.runID == r && Free(s, r)
    ensures Serial(s, Fire(t)) && Allowed(rules, s, Fire(t)) && Retold(s, Fire(t), story, r, httpToolOK) == story
    ensures var s' := Apply(s, Fire(t), httpToolOK);
            s'.db == s.db && s'.workflows == s.workflows && s.timers[t].job in s'.channel && Free(s', r)
  {}

  lemma FireHappens(
    rules: Rules, capacity: nat, history: seq<Action>, s: System, r: string, job: Job, story: Story, t: nat,
    httpToolOK: Fields -> bool)
    returns (history': seq<Action>, s': System)
    requires Plays(rules, capacity, history, s, r, Queued(job), story, httpToolOK)
    requires t in s.timers && s.timers[t].job == job && job.runID == r
    ensures Plays(rules, capacity, history', s', r, Queued(job), story, httpToolOK)
    ensures s'.db == s.db && s'.workflows == s.workflows && job in s'.channel
  {
    hide *;
    PlaysMeans(rules, capacity, history, s, r, Queued(job), story, httpToolOK);
    var owner := SafeAfter(rules, capacity, history, s, httpToolOK);
    SafeMeans(s, owner, httpToolOK);
    FireEnabled(s, owner, r, t);
    FireLeavesAll(s, Fire(t), r, Queued(job), httpToolOK);
    FireIsQuiet(rules, s, t, r, Some(story), httpToolOK);
    history', s' := history + [Fire(t)], Apply(s, Fire(t), httpToolOK);
    OneMore(rules, capacity, history, Fire(t), s, r, Queued(job), story, httpToolOK);
  }

  lemma HeadIsOurs(s: System, owner: map<string, Place>, r: string, job: Job)
    requires Located(s, owner) && Free(s, r) && job in s.channel && job.runID == r
    ensures s.channel[0] == job
  {
    assert s.channel[0] in s.channel && owner[r] == InChannel(s.channel[0]) == InChannel(job);
  }

  lemma DequeueIsTake(
    rules: Rules, s: System, a: nat, r: string, story: Story, httpToolOK: Fields -> bool)
    requires Enabled(s, Dequeue(a)) && s.channel[0].runID == r && Free(s, r)
    ensures Serial(s, Dequeue(a)) && Allowed(rules, s, Dequeue(a))
    ensures Retold(s, Dequeue(a), Some(story), r, httpToolOK) == Some(ToldOn(story, Take))
    ensures var s' := Apply(s, Dequeue(a), httpToolOK);
            && s'.db == s.db && s'.workflows == s.workflows && Free(s', r)
            && IsWhere(s', r, Busy(Holding(s.channel[0])))
  {
    var s' := Apply(s, Dequeue(a), httpToolOK);
    assert a in s'.agents && s'.agents[a] == Holding(s.channel[0]);
    assert forall j :: j in s.channel[1..] ==> j in s.channel;
  }

  lemma DequeueHappens(
    rules: Rules, capacity: nat, history: seq<Action>, s: System, r: string, job: Job, story: Story,
    httpToolOK: Fields -> bool)
    returns (history': seq<Action>, s': System)
    requires Plays(rules, capacity, history, s, r, Queued(job), story, httpToolOK)
    requires job in s.channel && job.runID == r
    ensures Plays(rules, capacity, history', s', r, Busy(Holding(job)), ToldOn(story, Take), httpToolOK)
    ensures s'.db == s.db && s'.workflows == s.workflows
  {
    var a := UnusedKey(s.agents);
    assert Enabled(s, Dequeue(a));
    hide *;
    PlaysMeans(rules, capacity, history, s, r, Queued(job), story, httpToolOK);
    var owner := SafeAfter(rules, capacity, history, s, httpToolOK);
    SafeMeans(s, owner, httpToolOK);
    HeadIsOurs(s, owner, r, job);
    DequeueIsTake(rules, s, a, r, story, httpToolOK);
    history', s' := history + [Dequeue(a)], Apply(s, Dequeue(a), httpToolOK);
    OneMore(rules, capacity, history, Dequeue(a), s, r, Busy(Holding(job)), ToldOn(story, Take), httpToolOK);
  }

  lemma TakeHappens(
    rules: Rules, capacity: nat, history: seq<Action>, s: System, r: string, job: Job, story: Story,
    httpToolOK: Fields -> bool)
    returns (history': seq<Action>, s': System)
    requires Plays(rules, capacity, history, s, r, Queued(job), story, httpToolOK)
    ensures Plays(rules, capacity, history', s', r, Busy(Holding(job)), ToldOn(story, Take), httpToolOK)
    ensures s'.db == s.db == s.db[r := s.db[r]] && s'.workflows == s.workflows
  {
    hide AfterBy, StoryOf;
    if job in s.channel {
      history', s' := DequeueHappens(rules, capacity, history, s, r, job, story, httpToolOK);
    } else {
      var t :| t in s.timers && s.timers[t].job == job;
      var history1, s1 := FireHappens(rules, capacity, history, s, r, job, story, t, httpToolOK);
      history', s' := DequeueHappens(rules, capacity, history1, s1, r, job, story, httpToolOK);
    }
  }

  // Resuming

  lemma TenantNamed(s: System, owner: map<string, Place>, r: string, httpToolOK: Fields -> bool)
    requires Safe(s, owner, httpToolOK) && r in s.db
    ensures TrimSpace(s.db[r].run.tenantID) != ""
  {
    hide TrimSpace, Resolve, PlaceFits, Stored, Located, Accepted;
    assert RunFits(s.workflows, s.db[r], owner[r]);
  }

  lemma ResumeApplies(s: System, act: Action, rec: Record)
    requires act.StartResume? && act.runID in s.db && s.db[act.runID] == rec && act.tenantID == rec.run.tenantID
    requires LoadedFor(s.workflows, rec, act.approved, act.comment, act.input).Some?
    ensures var pc := LoadedFor(s.workflows, rec, act.approved, act.comment, act.input).value;
            ApplyStartResume(s, act) == s.(agents := s.agents[act.agent := pc]) && RunOf(pc) == rec.run.id
  {
    hide Resolve, MergeInput;
  }

  lemma ResumeEnabled(rules: Rules, s: System, act: Action)
    requires act.StartResume? && act.agent !in s.agents && TrimSpace(act.tenantID) != ""
    requires InputAllowed(rules, act.input)
    requires IsWhere(s, act.runID, Resting)
    ensures Enabled(s, act) && Serial(s, act) && Allowed(rules, s, act) && Touched(s, act) == Some(act.runID)
  {
    hide TrimSpace, InputAllowed;
  }

  lemma ResumeHappens(
    rules: Rules, capacity: nat, history: seq<Action>, s: System, r: string, story: Story,
    approved: bool, comment: string, input: Fields, httpToolOK: Fields -> bool)
    returns (history': seq<Action>, s': System)
    requires Plays(rules, capacity, history, s, r, Resting, story, httpToolOK)
    requires DoOne(rules, s.workflows, s.db[r], Resting, ResumeWith(approved, comment, input)).Some?
    ensures var (rec', w') := DoOne(rules, s.workflows, s.db[r], Resting, ResumeWith(approved, comment, input)).value;
            && Plays(rules, capacity, history', s', r, w',
                     ToldOn(story, ResumeWith(approved, comment, input)), httpToolOK)
            && s'.db == s.db[r := rec'] && s'.workflows == s.workflows
  {
    hide AfterBy, StoryOf, Safe, LoadedFor, TrimSpace, ApplyStartResume;
    var owner := SafeAfter(rules, capacity, history, s, httpToolOK);
    SafeMeans(s, owner, httpToolOK);
    hide Located;
    var a := UnusedKey(s.agents);
    var act := StartResume(a, s.db[r].run.tenantID, r, approved, comment, input);
    TenantNamed(s, owner, r, httpToolOK);
    ResumeEnabled(rules, s, act);
    ResumeApplies(s, act, s.db[r]);
    hide Serial, Allowed, RunOf;
    history', s' := history + [act], Apply(s, act, httpToolOK);
    assert a in s'.agents && RunOf(s'.agents[a]) == r;
    assert s.db[r := s.db[r]] == s.db;
    var w := Busy(s'.agents[a]);
    assert IsWhere(s', r, w) && Free(s', r);
    hide IsWhere, Free, Enabled;
    OneMore(rules, capacity, history, act, s, r, w, ToldOn(story, ResumeWith(approved, comment, input)), httpToolOK);
  }

  lemma DoingHappens(
    rules: Rules, capacity: nat, history: seq<Action>, s: System, r: string, w: Where, story: Story, doing: Doing,
    httpToolOK: Fields -> bool)
    returns (history': seq<Action>, s': System)
    requires Plays(rules, capacity, history, s, r, w, story, httpToolOK)
    requires DoOne(rules, s.workflows, s.db[r], w, doing).Some?
    ensures var (rec', w') := DoOne(rules, s.workflows, s.db[r], w, doing).value;
            && Plays(rules, capacity, history', s', r, w', ToldOn(story, doing), httpToolOK)
            && s'.db == s.db[r := rec'] && s'.workflows == s.workflows
  {
    hide Plays, LocalStep, LoadedFor, ResultAllowed, InputAllowed, Resolves;
    match w {
      case Busy(pc) =>
        history', s' := ActHappens(rules, capacity, history, s, r, pc, story, doing.result, httpToolOK);
      case Queued(job) =>
        history', s' := TakeHappens(rules, capacity, history, s, r, job, story, httpToolOK);
      case Resting =>
        history', s' := ResumeHappens(rules, capacity, history, s, r, story, doing.approved, doing.comment, doing.input,
                                      httpToolOK);
    }
  }

  // From the first call on

  function BirthOf(story: Story, agent: nat): Action {
    var run := story.birth.run;
    if run.trigger == Async then StartAsync(agent, run.id, run.tenantID, run.workflowID, run.input)
    else StartSync(agent, run.id, run.tenantID, run.workflowID, run.input)
  }

  lemma BirthApplies(s: System, story: Story, agent: nat, httpToolOK: Fields -> bool)
    requires Born(s.workflows, story.birth, story.start) && agent !in s.agents && story.birth.run.id !in s.db
    ensures var (act, r) := (BirthOf(story, agent), story.birth.run.id);
            && Enabled(s, act) && Touched(s, act) == Some(r)
            && Apply(s, act, httpToolOK)
               == s.(db := s.db[r := story.birth], agents := s.agents[agent := story.start.pc])
            && RunOf(story.start.pc) == r
  {
    assert story.birth.run.workflowID in s.workflows;
    hide TrimSpace, GraphOf, Roots;
  }

  lemma BirthHappens(
    rules: Rules, capacity: nat, history: seq<Action>, s: System, r: string, story: Story, httpToolOK: Fields -> bool)
    returns (history': seq<Action>, s': System)
    requires AfterBy(rules, capacity, history, httpToolOK) == Some(s) && r !in s.db && Free(s, r)
    requires Born(s.workflows, story.birth, story.start) && story.birth.run.id == r && story.doings == []
    ensures Plays(rules, capacity, history', s', r, story.start, story, httpToolOK)
    ensures s'.db == s.db[r := story.birth] && s'.workflows == s.workflows
  {
    var a := UnusedKey(s.agents);
    var act := BirthOf(story, a);
    BirthApplies(s, story, a, httpToolOK);
    hide AfterBy, StoryOf, Apply, Enabled, Resolve, TrimSpace;
    history', s' := history + [act], Apply(s, act, httpToolOK);
    assert a in s'.agents && s'.agents[a] == story.start.pc;
    assert IsWhere(s', r, story.start) && Free(s', r) && Allowed(rules, s, act) && Serial(s, act);
    hide IsWhere, Free, Born, RunOf, Allowed, Serial;
    OneMore(rules, capacity, history, act, s, r, story.start, story, httpToolOK);
  }

  lemma {:induction false} StoryPlays(
    rules: Rules, capacity: nat, history: seq<Action>, s: System, r: string, story: Story, httpToolOK: Fields -> bool)
    returns (history': seq<Action>, s': System)
    requires AfterBy(rules, capacity, history, httpToolOK) == Some(s) && r !in s.db && Free(s, r)
    requires Born(s.workflows, story.birth, story.start) && story.birth.run.id == r
    requires DoAll(rules, s.workflows, story.birth, story.start, story.doings).Some?
    ensures var (rec, w) := DoAll(rules, s.workflows, story.birth, story.start, story.doings).value;
            && Plays(rules, capacity, history', s', r, w, story, httpToolOK)
            && s'.db == s.db[r := rec] && s'.workflows == s.workflows
    decreases |story.doings|
  {
    if story.doings == [] {
      hide AfterBy, Plays, Born;
      history', s' := BirthHappens(rules, capacity, history, s, r, story, httpToolOK);
    } else {
      hide AfterBy, Plays, Born, DoOne, DoAll;
      var k := |story.doings| - 1;
      var earlier := story.(doings := story.doings[..k]);
      DoAllSnoc(rules, s.workflows, story.birth, story.start, story.doings);
      var history1, s1 := StoryPlays(rules, capacity, history, s, r, earlier, httpToolOK);
      var (rec, w) := DoAll(rules, s.workflows, story.birth, story.start, earlier.doings).value;
      history', s' := DoingHappens(rules, capacity, history1, s1, r, w, earlier, story.doings[k], httpToolOK);
      assert ToldOn(earlier, story.doings[k]) == story;
      assert s.db[r := rec][r := s'.db[r]] == s.db[r := s'.db[r]];
    }
  }

  /**
   * Every story a new run can have by itself is one it has in some history of the whole system, begun in any
   * state whose channel is empty: histories put no other limit on what happens to one run.
   */
  lemma EveryStoryHappens(
    rules: Rules, capacity: nat, history: seq<Action>, s: System, story: Story, rec: Record, w: Where,
    httpToolOK: Fields -> bool)
    returns (history': seq<Action>, s': System)
    requires AfterBy(rules, capacity, history, httpToolOK) == Some(s) && s.channel == [] && s.capacity > 0
    requires OwnDoing(rules, s.workflows, rec, w, story) && story.birth.run.id !in s.db
    ensures AfterBy(rules, capacity, history', httpToolOK) == Some(s')
    ensures var r := story.birth.run.id;
            && s'.db == s.db[r := rec] && s'.workflows == s.workflows && IsWhere(s', r, w)
            && StoryOf(rules, capacity, history', r, httpToolOK) == Some(story)
  {
    hide AfterBy, StoryOf, Born, DoAll, IsWhere, Plays;
    var r := story.birth.run.id;
    history', s' := StoryPlays(rules, capacity, history, s, r, story, httpToolOK);
    PlaysMeans(rules, capacity, history', s', r, w, story, httpToolOK);
  }
}
