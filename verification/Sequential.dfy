/** An undisturbed call, as the methods of `Executor.Service` perform it, is one of the protocol's interleavings. */
module Sequential {
  import opened Values
  import opened Engine
  import opened Runs
  import opened Protocol
  import opened Tokens
  import opened Safety
  import opened Guarantees
  import opened Executor

  lemma ReachableNext(s: System, act: Action, httpToolOK: Fields -> bool)
    requires Reachable(s, httpToolOK) && Enabled(s, act) && Serial(s, act)
    ensures Reachable(Apply(s, act, httpToolOK), httpToolOK)
  {
    hide Apply, Enabled, Serial;
    var capacity: nat, history :| After(capacity, history, httpToolOK) == Some(s);
    var longer := history + [act];
    assert longer[..|longer| - 1] == history;
    assert After(capacity, longer, httpToolOK) == Some(Apply(s, act, httpToolOK));
  }

  /** One undisturbed step that keeps the run is a move of the system. */
  lemma StayIsMove(s: System, agent: nat, body: Body, httpToolOK: Fields -> bool)
    requires Reachable(s, httpToolOK) && agent in s.agents
    ensures var pc := s.agents[agent];
            && RunOf(pc) in s.db
            && var e := LocalStep(s.workflows, s.db[RunOf(pc)], pc, NodeResult(body, pc));
               e.dest.Stay? ==>
                 && RunOf(e.dest.pc) == RunOf(pc)
                 && Reachable(s.(db := s.db[RunOf(pc) := e.rec], agents := s.agents[agent := e.dest.pc]), httpToolOK)
  {
    hide LocalStep, Located, Fitting, Reachable, RunFits, RecordFits, PcFits, Apply, ApplyMove;
    var pc := s.agents[agent];
    var owner := ReachableSafe(s, httpToolOK);
    AgentFits(s, owner, agent, httpToolOK);
    var e := LocalStep(s.workflows, s.db[RunOf(pc)], pc, NodeResult(body, pc));
    if e.dest.Stay? {
      var act := Move(agent, NodeResult(body, pc), 0);
      SendersDoNotStay(s.workflows, s.db[RunOf(pc)], pc, NodeResult(body, pc));
      MoveFits(s, owner, act, httpToolOK);
      ReachableNext(s, act, httpToolOK);
      MoveCommits(s, act, httpToolOK);
    }
  }

  lemma MoveCommits(s: System, act: Action, httpToolOK: Fields -> bool)
    requires act.Move? && Enabled(s, act) && RunOf(s.agents[act.agent]) in s.db
    ensures var r := RunOf(s.agents[act.agent]);
            Apply(s, act, httpToolOK)
            == Commit(s, act.agent, act.timer, r, LocalStep(s.workflows, s.db[r], s.agents[act.agent], act.result))
  {
    hide LocalStep, Commit;
  }

  lemma SendersDoNotStay(workflows: Workflows, rec: Record, pc: Pc, result: Result<Value, string>)
    ensures LocalStep(workflows, rec, pc, result).dest.Stay? ==> !pc.Announced? && !pc.Scheduling?
  {}

  /** So is any number of them: what a method reaches, the system reaches with every other run as it was. */
  lemma {:induction false} UndisturbedCallIsReachable(
    s: System, agent: nat, body: Body, rec: Record, pc: Pc, n: nat, httpToolOK: Fields -> bool)
    requires Reachable(s, httpToolOK) && agent in s.agents && RunOf(s.agents[agent]) in s.db
    requires LocalAfter(s.workflows, body, s.db[RunOf(s.agents[agent])], s.agents[agent], n) == Some((rec, pc))
    ensures RunOf(pc) == RunOf(s.agents[agent])
    ensures Reachable(s.(db := s.db[RunOf(pc) := rec], agents := s.agents[agent := pc]), httpToolOK)
    decreases n
  {
    hide Reachable, LocalStep;
    var r := RunOf(s.agents[agent]);
    if n == 0 {
      assert s.db[r := rec] == s.db && s.agents[agent := pc] == s.agents;
    } else {
      var (rec', pc') := LocalAfter(s.workflows, body, s.db[r], s.agents[agent], n - 1).value;
      UndisturbedCallIsReachable(s, agent, body, rec', pc', n - 1, httpToolOK);
      var s' := s.(db := s.db[r := rec'], agents := s.agents[agent := pc']);
      StayIsMove(s', agent, body, httpToolOK);
      assert s'.db[r := rec] == s.db[r := rec] && s'.agents[agent := pc] == s.agents[agent := pc];
    }
  }

  lemma LeavingDestination(workflows: Workflows, rec: Record, pc: Pc, rec': Record, dest: Dest)
    requires Leaving(workflows, rec, pc, rec', dest)
    ensures (pc.Announced? ==> dest.ToChannel?) && (pc.Scheduling? ==> dest.ToTimer?)
  {}

  lemma CommitOnce(s: System, agent: nat, timer: nat, r: string, rec: Record, pc: Pc, e: Effect)
    requires agent in s.agents && !e.dest.Stay?
    ensures Commit(s.(db := s.db[r := rec], agents := s.agents[agent := pc]), agent, timer, r, e)
         == Commit(s, agent, timer, r, e)
  {
    assert s.db[r := rec][r := e.rec] == s.db[r := e.rec];
    assert s.agents[agent := pc] - {agent} == s.agents - {agent};
  }

  /**
   * And so is the whole call: the state its last step leaves, with the job it sent in the channel or in a new
   * timer, is reachable, so what holds of every reachable state holds when a method of the service returns.
   */
  lemma CallEndIsReachable(
    s: System, agent: nat, timer: nat, body: Body, rec: Record, dest: Dest, httpToolOK: Fields -> bool)
    requires Reachable(s, httpToolOK) && agent in s.agents && RunOf(s.agents[agent]) in s.db
    requires Ends(s.workflows, body, s.db[RunOf(s.agents[agent])], s.agents[agent], rec, dest)
    requires dest.ToChannel? ==> |s.channel| < s.capacity
    requires dest.ToTimer? ==> timer !in s.timers
    ensures Reachable(Commit(s, agent, timer, RunOf(s.agents[agent]), Effect(rec, dest)), httpToolOK)
  {
    hide Reachable, LocalStep, Commit, Apply;
    var r := RunOf(s.agents[agent]);
    var before, was :| Reached(s.workflows, body, s.db[r], s.agents[agent], before, was)
                       && Leaving(s.workflows, before, was, rec, dest);
    var n: nat :| LocalAfter(s.workflows, body, s.db[r], s.agents[agent], n) == Some((before, was));
    UndisturbedCallIsReachable(s, agent, body, before, was, n, httpToolOK);
    var s' := s.(db := s.db[r := before], agents := s.agents[agent := was]);
    LeavingDestination(s.workflows, before, was, rec, dest);
    LastMoveIsReachable(s', agent, timer, rec, dest, httpToolOK);
    CommitOnce(s, agent, timer, r, before, was, Effect(rec, dest));
  }

  lemma LastMoveIsReachable(s: System, agent: nat, timer: nat, rec: Record, dest: Dest, httpToolOK: Fields -> bool)
    requires Reachable(s, httpToolOK) && agent in s.agents && RunOf(s.agents[agent]) in s.db
    requires Leaving(s.workflows, s.db[RunOf(s.agents[agent])], s.agents[agent], rec, dest)
    requires dest.ToChannel? ==> |s.channel| < s.capacity
    requires dest.ToTimer? ==> timer !in s.timers
    ensures Reachable(Commit(s, agent, timer, RunOf(s.agents[agent]), Effect(rec, dest)), httpToolOK)
  {
    hide Reachable, LocalStep, Commit, Apply;
    LeavingDestination(s.workflows, s.db[RunOf(s.agents[agent])], s.agents[agent], rec, dest);
    var act := Move(agent, Err(""), timer);
    ReachableNext(s, act, httpToolOK);
    MoveCommits(s, act, httpToolOK);
  }
}
