/**
 * Whatever the nodes of a run return, one function of run, attempt and node returns just that: within an attempt
 * no node is called twice.
 */
module Ledger {
  import opened Text
  import opened Values
  import opened Workflow
  import opened Engine
  import opened Once
  import opened Runs
  import opened Protocol
  import opened Tokens
  import opened Guarantees
  import opened Solo
  import opened Tidiness

  /** What the nodes of each attempt have returned. */
  type Results = map<(int, string), Result<Value, string>>

  function BodiesOf(l: Results): Bodies {
    (runID: string, attempt: int) => (node: Node, input: Fields, outputs: Fields) =>
        if (attempt, node.id) in l then l[(attempt, node.id)] else Ok(Null)
  }

  predicate Calls(w: Where, doing: Doing) {
    doing.Act? && w.Busy? && w.pc.Walking? && w.pc.st.queue != []
  }

  function Noted(l: Results, w: Where, doing: Doing): Results {
    if Calls(w, doing) then l[(w.pc.run.attempt, w.pc.g.Node(w.pc.st.queue[0]).id) := doing.result] else l
  }

  ghost function ResultsOf(workflows: Workflows, birth: Record, start: Where, doings: seq<Doing>): Results
    requires DoAll(ANYTHING, workflows, birth, start, doings).Some?
  {
    if doings == [] then map[]
    else
      var k := |doings| - 1;
      DoAllSnoc(ANYTHING, workflows, birth, start, doings);
      Noted(ResultsOf(workflows, birth, start, doings[..k]),
            DoAll(ANYTHING, workflows, birth, start, doings[..k]).value.1, doings[k])
  }

  // The results noted are those of earlier attempts, or of nodes this attempt has executed or is parked at

  ghost predicate Past(l: Results, attempt: int) {
    forall a, id :: (a, id) in l ==> a <= attempt
  }

  ghost predicate Within(l: Results, attempt: int, ids: set<string>) {
    forall a, id :: (a, id) in l ==> a < attempt || (a == attempt && id in ids)
  }

  ghost predicate Behind(l: Results, run: Run, pending: Option<Pending>) {
    && Past(l, run.attempt)
    && (pending.Some? ==> Within(l, run.attempt, pending.value.executed + {pending.value.waitingNodeID}))
  }

  ghost predicate NotedAt(l: Results, rec: Record, w: Where) {
    if !w.Busy? then Behind(l, rec.run, rec.pending)
    else
      match w.pc
      case Checked(_, run, _) => Within(l, run.attempt, {})
      case Starting(_, run, _, st) => Within(l, run.attempt, st.executed)
      case Walking(_, run, _, st, _) => Within(l, run.attempt, st.executed)
      case Stopped(_, run, o) => Behind(l, run, PendingOf(o))
      case Loaded(run, _, pending, _, _, _) => Behind(l, run, Some(pending)) && Behind(l, rec.run, rec.pending)
      case Rejecting(run, _) => Past(l, run.attempt)
      case _ => Behind(l, rec.run, rec.pending)
  }

  lemma TurnNoted(l: Results, pc: Pc, result: Result<Value, string>)
    requires pc.Walking? && pc.st.queue != [] && pc.g.Valid() && "" !in pc.g.nodes && Neat(pc.st, pc.queued)
    requires Within(l, pc.run.attempt, pc.st.executed)
    ensures var (id, turn) := (pc.g.Node(pc.st.queue[0]).id,
                               TakeTurn(pc.g, pc.st, pc.queued, ReturnOf(pc.g, pc.st, result), []));
            && (pc.run.attempt, id) !in l
            && var l' := l[(pc.run.attempt, id) := result];
               if turn.Go? then Within(l', pc.run.attempt, turn.st.executed)
               else Behind(l', pc.run, PendingOf(turn.outcome))
  {
    HeadKnownOrZero(pc.g, pc.st);
    HeadTidy(pc.st, pc.queued);
    var turn := TakeTurn(pc.g, pc.st, pc.queued, ReturnOf(pc.g, pc.st, result), []);
    if turn.Go? {
      GoStaysNeat(pc.g, pc.st, pc.queued, result);
    } else {
      StopParks(pc.g, pc.st, pc.queued, ReturnOf(pc.g, pc.st, result));
    }
    hide TakeTurn, Tidy, ReturnOf;
  }

  lemma NotedCall(l: Results, pc: Pc, result: Result<Value, string>)
    requires pc.Walking?
    ensures Noted(l, Busy(pc), Act(result))
            == if pc.st.queue == [] then l else l[(pc.run.attempt, pc.g.Node(pc.st.queue[0]).id) := result]
  {}

  lemma GoneNoted(l: Results, rec: Record, pc: Pc, st: State, queued: set<string>)
    requires pc.Walking? && Within(l, pc.run.attempt, st.executed)
    ensures NotedAt(l, rec, Busy(Walking(pc.mode, pc.run, pc.g, st, queued)))
  {
    hide Within;
  }

  lemma EndedNoted(l: Results, rec: Record, pc: Pc, o: Outcome)
    requires pc.Walking? && Behind(l, pc.run, PendingOf(o))
    ensures NotedAt(l, rec, Busy(Stopped(pc.mode, pc.run, o)))
  {
    hide Behind;
  }

  lemma WithinIsBehind(l: Results, run: Run, ids: set<string>, st: State)
    requires Within(l, run.attempt, ids)
    ensures Behind(l, run, PendingOf(Finished(st)))
  {}

  lemma WalkingNoted(
    workflows: Workflows, rec: Record, pc: Pc, result: Result<Value, string>, l: Results, httpToolOK: Fields -> bool)
    requires AllAccepted(workflows, httpToolOK) && TidyAt(workflows, rec, Busy(pc)) && pc.Walking?
    requires Within(l, pc.run.attempt, pc.st.executed)
    ensures pc.st.queue != [] ==> (pc.run.attempt, pc.g.Node(pc.st.queue[0]).id) !in l
    ensures var e := LocalStep(workflows, rec, pc, result);
            NotedAt(Noted(l, Busy(pc), Act(result)), e.rec, WhereTo(e.dest))
  {
    hide *;
    var e := LocalStep(workflows, rec, pc, result);
    WalkingMeans(workflows, rec, pc);
    ResolvedPromised(workflows, pc.run, pc.g, httpToolOK);
    PromisedMeans(pc.g);
    WalkingIsWalkStep(workflows, rec, pc, result);
    NotedCall(l, pc, result);
    if pc.st.queue == [] {
      WithinIsBehind(l, pc.run, pc.st.executed, pc.st);
      EndedNoted(l, e.rec, pc, Finished(pc.st));
    } else {
      WalkGoes(rec, pc, result);
      TurnNoted(l, pc, result);
      var turn := TakeTurn(pc.g, pc.st, pc.queued, ReturnOf(pc.g, pc.st, result), []);
      if turn.Go? {
        GoneNoted(Noted(l, Busy(pc), Act(result)), e.rec, pc, turn.st, turn.queued);
      } else {
        EndedNoted(Noted(l, Busy(pc), Act(result)), e.rec, pc, turn.outcome);
      }
    }
    StayIsBusy(e.dest);
  }

  lemma HoldingNoted(workflows: Workflows, rec: Record, pc: Pc, result: Result<Value, string>, l: Results)
    requires RunFits(workflows, rec, With(0, pc)) && pc.Holding? && Behind(l, rec.run, rec.pending)
    ensures var e := LocalStep(workflows, rec, pc, result);
            NotedAt(l, e.rec, WhereTo(e.dest))
  {
    HeldJobChecks(workflows, rec, pc);
    hide RunFits, CheckJob;
  }

  lemma LoadedNoted(workflows: Workflows, rec: Record, pc: Pc, result: Result<Value, string>, l: Results)
    requires NotedAt(l, rec, Busy(pc)) && pc.Loaded?
    ensures var e := LocalStep(workflows, rec, pc, result);
            NotedAt(l, e.rec, WhereTo(e.dest))
  {
    hide Decision, ResolvedSteps;
  }

  lemma StoringNoted(workflows: Workflows, rec: Record, pc: Pc, result: Result<Value, string>, l: Results)
    requires NotedAt(l, rec, Busy(pc)) && (pc.Stopped? || pc.Rejecting? || pc.Checked? || pc.Starting?)
    ensures var e := LocalStep(workflows, rec, pc, result);
            NotedAt(l, e.rec, WhereTo(e.dest))
  {
    hide RunOutput;
  }

  lemma OnRecordNoted(l: Results, rec: Record, w: Where)
    requires OnRecord(w)
    ensures NotedAt(l, rec, w) <==> Behind(l, rec.run, rec.pending)
  {
    hide Behind;
  }

  lemma BehindForSame(l: Results, run: Run, other: Run, pending: Option<Pending>)
    requires Behind(l, run, pending) && run.attempt == other.attempt
    ensures Behind(l, other, pending)
  {
    hide Past, Within;
  }

  lemma RecordingNoted(workflows: Workflows, rec: Record, pc: Pc, result: Result<Value, string>, l: Results)
    requires RunFits(workflows, rec, With(0, pc)) && NotedAt(l, rec, Busy(pc))
    requires OnRecord(Busy(pc)) && !pc.Holding?
    ensures var e := LocalStep(workflows, rec, pc, result);
            NotedAt(l, e.rec, WhereTo(e.dest))
  {
    hide *;
    if pc.Returned? {
      ReturnedIsStored(workflows, rec, pc);
    }
    var e := LocalStep(workflows, rec, pc, result);
    OnRecordNoted(l, rec, Busy(pc));
    RecordingKeeps(workflows, rec, pc, result);
    BehindForSame(l, rec.run, e.rec.run, rec.pending);
    OnRecordNoted(l, e.rec, WhereTo(e.dest));
  }

  lemma ActNoted(
    workflows: Workflows, rec: Record, pc: Pc, result: Result<Value, string>, l: Results, httpToolOK: Fields -> bool)
    requires AllAccepted(workflows, httpToolOK) && RunFits(workflows, rec, With(0, pc))
    requires TidyAt(workflows, rec, Busy(pc)) && NotedAt(l, rec, Busy(pc))
    ensures Calls(Busy(pc), Act(result)) ==> (pc.run.attempt, pc.g.Node(pc.st.queue[0]).id) !in l
    ensures var e := LocalStep(workflows, rec, pc, result);
            NotedAt(Noted(l, Busy(pc), Act(result)), e.rec, WhereTo(e.dest))
  {
    hide AllAccepted, TidyAt, LocalStep, RunFits;
    NeverUnresolvable(workflows, rec, pc);
    match pc {
      case Holding(_) => HoldingNoted(workflows, rec, pc, result, l);
      case Walking(_, _, _, _, _) => WalkingNoted(workflows, rec, pc, result, l, httpToolOK);
      case Loaded(_, _, _, _, _, _) => LoadedNoted(workflows, rec, pc, result, l);
      case Checked(_, _, _) => StoringNoted(workflows, rec, pc, result, l);
      case Starting(_, _, _, _) => StoringNoted(workflows, rec, pc, result, l);
      case Stopped(_, _, _) => StoringNoted(workflows, rec, pc, result, l);
      case Rejecting(_, _) => StoringNoted(workflows, rec, pc, result, l);
      case _ => RecordingNoted(workflows, rec, pc, result, l);
    }
  }

  lemma HandingNoted(rules: Rules, workflows: Workflows, rec: Record, w: Where, doing: Doing, l: Results)
    requires NotedAt(l, rec, w) && !w.Busy? && DoOne(rules, workflows, rec, w, doing).Some?
    ensures var (rec', w') := DoOne(rules, workflows, rec, w, doing).value;
            NotedAt(l, rec', w')
  {
    hide Resolve, MergeInput, InputAllowed, Within;
  }

  lemma DoOneNoted(
    rules: Rules, workflows: Workflows, rec: Record, w: Where, doing: Doing, l: Results, httpToolOK: Fields -> bool)
    requires AllAccepted(workflows, httpToolOK) && RunFits(workflows, rec, PlaceIn(w)) && TidyAt(workflows, rec, w)
    requires NotedAt(l, rec, w) && DoOne(rules, workflows, rec, w, doing).Some?
    ensures Calls(w, doing) ==> (w.pc.run.attempt, w.pc.g.Node(w.pc.st.queue[0]).id) !in l
    ensures var (rec', w') := DoOne(rules, workflows, rec, w, doing).value;
            NotedAt(Noted(l, w, doing), rec', w')
  {
    hide AllAccepted, TidyAt, RunFits, LocalStep, ResultAllowed, Resolves, LoadedFor, NotedAt;
    if w.Busy? {
      ActNoted(workflows, rec, w.pc, doing.result, l, httpToolOK);
    } else {
      HandingNoted(rules, workflows, rec, w, doing, l);
    }
  }

  lemma BornNoted(workflows: Workflows, rec: Record, w: Where)
    requires Born(workflows, rec, w)
    ensures NotedAt(map[], rec, w)
  {
    hide Resolve, TrimSpace;
  }

  lemma ResultsSnoc(workflows: Workflows, birth: Record, start: Where, doings: seq<Doing>)
    requires doings != [] && DoAll(ANYTHING, workflows, birth, start, doings).Some?
    ensures var before := DoAll(ANYTHING, workflows, birth, start, doings[..|doings| - 1]);
            && before.Some?
            && ResultsOf(workflows, birth, start, doings)
               == Noted(ResultsOf(workflows, birth, start, doings[..|doings| - 1]),
                        before.value.1, doings[|doings| - 1])
  {
    DoAllSnoc(ANYTHING, workflows, birth, start, doings);
    hide DoAll, Noted;
  }

  lemma {:induction false} DoAllNoted(
    workflows: Workflows, birth: Record, start: Where, doings: seq<Doing>, httpToolOK: Fields -> bool)
    requires AllAccepted(workflows, httpToolOK) && Born(workflows, birth, start)
    requires DoAll(ANYTHING, workflows, birth, start, doings).Some?
    ensures var (rec, w) := DoAll(ANYTHING, workflows, birth, start, doings).value;
            NotedAt(ResultsOf(workflows, birth, start, doings), rec, w)
  {
    if doings == [] {
      BornNoted(workflows, birth, start);
    } else {
      hide *;
      var k := |doings| - 1;
      DoAllSnoc(ANYTHING, workflows, birth, start, doings);
      ResultsSnoc(workflows, birth, start, doings);
      DoAllFits(ANYTHING, workflows, birth, start, doings[..k]);
      DoAllTidy(ANYTHING, workflows, birth, start, doings[..k], httpToolOK);
      DoAllNoted(workflows, birth, start, doings[..k], httpToolOK);
      var (rec, w) := DoAll(ANYTHING, workflows, birth, start, doings[..k]).value;
      DoOneNoted(ANYTHING, workflows, rec, w, doings[k], ResultsOf(workflows, birth, start, doings[..k]), httpToolOK);
    }
  }

  // The function that returns what was noted

  ghost predicate Contains(l: Results, l': Results) {
    forall key :: key in l ==> key in l' && l'[key] == l[key]
  }

  lemma NotedKeeps(l: Results, w: Where, doing: Doing, l': Results)
    requires Contains(Noted(l, w, doing), l')
    requires Calls(w, doing) ==> (w.pc.run.attempt, w.pc.g.Node(w.pc.st.queue[0]).id) !in l
    ensures Contains(l, l')
    ensures Calls(w, doing) ==>
              && var key := (w.pc.run.attempt, w.pc.g.Node(w.pc.st.queue[0]).id);
                 key in l' && l'[key] == doing.result
  {
    if Calls(w, doing) {
      var key := (w.pc.run.attempt, w.pc.g.Node(w.pc.st.queue[0]).id);
      assert key in Noted(l, w, doing);
    }
    forall key | key in l ensures key in l' && l'[key] == l[key] {
      assert key in Noted(l, w, doing);
    }
  }

  lemma BodiesBlind(l: Results)
    ensures Blind(BodiesOf(l))
  {}

  /** A doing that was possible is what these bodies make of it. */
  lemma DoOneByResults(workflows: Workflows, rec: Record, w: Where, doing: Doing, l: Results)
    requires DoOne(ANYTHING, workflows, rec, w, doing).Some?
    requires Calls(w, doing) ==>
               && var key := (w.pc.run.attempt, w.pc.g.Node(w.pc.st.queue[0]).id);
                  key in l && l[key] == doing.result
    ensures DoOne(Rules(Some(BodiesOf(l)), false), workflows, rec, w, doing)
            == DoOne(ANYTHING, workflows, rec, w, doing)
  {
    BodiesBlind(l);
    hide LocalStep, LoadedFor, Resolves, Blind;
  }

  lemma SameStep(
    rules: Rules, workflows: Workflows, birth: Record, start: Where, doings: seq<Doing>, rec: Record, w: Where)
    requires doings != [] && DoAll(ANYTHING, workflows, birth, start, doings).Some?
    requires var front := doings[..|doings| - 1];
             DoAll(rules, workflows, birth, start, front) == DoAll(ANYTHING, workflows, birth, start, front)
             == Some((rec, w))
    requires DoOne(rules, workflows, rec, w, doings[|doings| - 1])
             == DoOne(ANYTHING, workflows, rec, w, doings[|doings| - 1])
    ensures DoAll(rules, workflows, birth, start, doings) == DoAll(ANYTHING, workflows, birth, start, doings)
  {
    hide DoOne;
  }

  /** The last doing, too, is what the noted results make of it. */
  lemma LastByResults(
    workflows: Workflows, birth: Record, start: Where, doings: seq<Doing>, l: Results, httpToolOK: Fields -> bool)
    returns (rec: Record, w: Where)
    requires AllAccepted(workflows, httpToolOK) && Born(workflows, birth, start) && doings != []
    requires DoAll(ANYTHING, workflows, birth, start, doings).Some?
    requires Contains(ResultsOf(workflows, birth, start, doings), l)
    ensures var (front, last) := (doings[..|doings| - 1], doings[|doings| - 1]);
            && DoAll(ANYTHING, workflows, birth, start, front) == Some((rec, w))
            && Contains(ResultsOf(workflows, birth, start, front), l)
            && DoOne(Rules(Some(BodiesOf(l)), false), workflows, rec, w, last)
               == DoOne(ANYTHING, workflows, rec, w, last)
  {
    hide *;
    var k := |doings| - 1;
    DoAllSnoc(ANYTHING, workflows, birth, start, doings);
    ResultsSnoc(workflows, birth, start, doings);
    DoAllFits(ANYTHING, workflows, birth, start, doings[..k]);
    DoAllTidy(ANYTHING, workflows, birth, start, doings[..k], httpToolOK);
    DoAllNoted(workflows, birth, start, doings[..k], httpToolOK);
    var before := DoAll(ANYTHING, workflows, birth, start, doings[..k]).value;
    rec, w := before.0, before.1;
    var earlier := ResultsOf(workflows, birth, start, doings[..k]);
    DoOneNoted(ANYTHING, workflows, rec, w, doings[k], earlier, httpToolOK);
    NotedKeeps(earlier, w, doings[k], l);
    DoOneByResults(workflows, rec, w, doings[k], l);
  }

  lemma {:induction false} DoAllByResults(
    workflows: Workflows, birth: Record, start: Where, doings: seq<Doing>, l: Results, httpToolOK: Fields -> bool)
    requires AllAccepted(workflows, httpToolOK) && Born(workflows, birth, start)
    requires DoAll(ANYTHING, workflows, birth, start, doings).Some?
    requires Contains(ResultsOf(workflows, birth, start, doings), l)
    ensures DoAll(Rules(Some(BodiesOf(l)), false), workflows, birth, start, doings)
         == DoAll(ANYTHING, workflows, birth, start, doings)
  {
    if doings != [] {
      hide *;
      var rec, w := LastByResults(workflows, birth, start, doings, l, httpToolOK);
      DoAllByResults(workflows, birth, start, doings[..|doings| - 1], l, httpToolOK);
      SameStep(Rules(Some(BodiesOf(l)), false), workflows, birth, start, doings, rec, w);
    }
  }

  /** Whatever results a story gives, its nodes have functions as bodies that return just these. */
  lemma StoryHasBodies(
    workflows: Workflows, rec: Record, w: Where, story: Story, httpToolOK: Fields -> bool) returns (bodies: Bodies)
    requires AllAccepted(workflows, httpToolOK) && OwnDoing(ANYTHING, workflows, rec, w, story)
    ensures OwnDoing(Rules(Some(bodies), false), workflows, rec, w, story)
  {
    hide AllAccepted, Born, DoAll, ResultsOf;
    var l := ResultsOf(workflows, story.birth, story.start, story.doings);
    bodies := BodiesOf(l);
    DoAllByResults(workflows, story.birth, story.start, story.doings, l, httpToolOK);
  }
}
