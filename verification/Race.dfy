/** A history in which a resume that does not wait for the parking call breaks the audit log. */
module Race {
  import opened Text
  import opened Values
  import opened Workflow
  import opened Graphs
  import opened Engine
  import opened Runs
  import opened Protocol
  import opened Singles

  const APPROVAL := Node("a", "approval", map[])

  function G(): Graph {
    OneNodeGraphOf("approval")
  }

  function Running(): Run {
    NewRun("r", "t", "w", RunRunning, Sync, 0, map[])
  }

  function Parked(): Run {
    Running().(status := RunWaitingApproval, output := ApprovalRequest(APPROVAL))
  }

  function Outcome(): Outcome {
    Paused(Wait(G(), NewState(["a"])), ApprovalRequest(APPROVAL), Freeze(G(), NewState(["a"])))
  }

  function Stage(log: seq<Event>, pc: Pc): System {
    System(map["w" := StoredWorkflow("t", OneNode("approval"))],
           map["r" := Record(Running(), [], None, log)], [], 1, map[], map[0 := pc])
  }

  /** The run has been saved as waiting; its run_waiting_approval event is still to be recorded. */
  function SavedStage(): System {
    Stage([], Written(BySync, Parked())).(
    db := map["r" := Record(Parked(), [WaitingStep(APPROVAL)],
                            Some(Outcome().pending), [RunStartedEvent, StepWaitingEvent("a")])])
  }

  lemma AfterOne(capacity: nat, h: seq<Action>, act: Action, s: System, httpToolOK: Fields -> bool)
    requires After(capacity, h, httpToolOK) == Some(s) && Enabled(s, act) && Serial(s, act)
    ensures After(capacity, h + [act], httpToolOK) == Some(Apply(s, act, httpToolOK))
  {
    hide Apply, Enabled, Serial;
    assert (h + [act])[..|h|] == h;
  }

  function StartAction(): Action {
    StartSync(0, "r", "t", "w", map[])
  }

  lemma StartApplies(httpToolOK: Fields -> bool)
    ensures Enabled(OneNodeSystem("approval"), StartAction()) && Serial(OneNodeSystem("approval"), StartAction())
    ensures Apply(OneNodeSystem("approval"), StartAction(), httpToolOK)
            == Stage([], Starting(BySync, Running(), G(), NewState(["a"])))
  {
    ShortNamesTrimmed();
    OneNodeResolves(OneNodeSystem("approval").workflows, "approval");
    hide TrimSpace, Resolve, OneNode, OneNodeGraphOf;
  }

  lemma StartedReachable(httpToolOK: Fields -> bool)
    ensures After(1, [StoreOneNode("approval"), StartAction()], httpToolOK)
            == Some(Stage([], Starting(BySync, Running(), G(), NewState(["a"]))))
  {
    assert After(1, [], httpToolOK) == Some(Initial(1));
    assert [] + [StoreOneNode("approval")] == [StoreOneNode("approval")];
    assert [StoreOneNode("approval")] + [StartAction()] == [StoreOneNode("approval"), StartAction()];
    hide After, Apply, Enabled, Serial, Stage, OneNodeSystem, StoreOneNode, StartAction;
    OneNodeStored("approval", httpToolOK);
    AfterOne(1, [], StoreOneNode("approval"), Initial(1), httpToolOK);
    StartApplies(httpToolOK);
    AfterOne(1, [StoreOneNode("approval")], StartAction(), OneNodeSystem("approval"), httpToolOK);
  }

  // Starting, waiting and saving: three moves of the client's call

  lemma MoveStart()
    ensures ApplyMove(Stage([], Starting(BySync, Running(), G(), NewState(["a"]))), Move(0, Err(""), 0))
            == Stage([RunStartedEvent], Walking(BySync, Running(), G(), NewState(["a"]), {"a"}))
  {
    assert Elements(["a"]) == {"a"};
    assert [] + [RunStartedEvent] == [RunStartedEvent];
  }

  lemma MoveWait()
    ensures ApplyMove(Stage([RunStartedEvent], Walking(BySync, Running(), G(), NewState(["a"]), {"a"})),
                      Move(0, Err(""), 0))
            == Stage([RunStartedEvent, StepWaitingEvent("a")], Stopped(BySync, Running(), Outcome()))
  {
    ApprovalWaits(Err("node type is not supported by sync execution yet"));
    hide TakeTurn, Outcome, Resolve, CheckJob;
    assert [RunStartedEvent] + [StepWaitingEvent("a")] == [RunStartedEvent, StepWaitingEvent("a")];
  }

  lemma ApprovalWaits(result: Result<Value, string>)
    ensures G().Node("a") == APPROVAL && Outcome().Paused?
    ensures TakeTurn(G(), NewState(["a"]), {"a"}, result, []) == Stop(Outcome())
  {
    hide ApprovalRequest, Freeze, Wait;
  }

  lemma MoveSave()
    ensures ApplyMove(Stage([RunStartedEvent, StepWaitingEvent("a")], Stopped(BySync, Running(), Outcome())),
                      Move(0, Err(""), 0))
            == SavedStage()
  {
    hide ApprovalRequest, Freeze;
    assert NewState(["a"]).steps + [WaitingStep(APPROVAL)] == [WaitingStep(APPROVAL)];
  }

  lemma AfterMove(h: seq<Action>, log: seq<Event>, pc: Pc, s': System, httpToolOK: Fields -> bool)
    requires After(1, h, httpToolOK) == Some(Stage(log, pc)) && !pc.Announced? && !pc.Scheduling?
    requires ApplyMove(Stage(log, pc), Move(0, Err(""), 0)) == s'
    ensures After(1, h + [Move(0, Err(""), 0)], httpToolOK) == Some(s')
  {
    hide ApplyMove, After;
    AfterOne(1, h, Move(0, Err(""), 0), Stage(log, pc), httpToolOK);
  }

  lemma SavedReachable(httpToolOK: Fields -> bool)
    ensures Reachable(SavedStage(), httpToolOK)
  {
    hide ApplyMove, Stage, SavedStage, After;
    var h := [StoreOneNode("approval"), StartAction()];
    var move := Move(0, Err(""), 0);
    var walking := Walking(BySync, Running(), G(), NewState(["a"]), {"a"});
    var stopped := Stopped(BySync, Running(), Outcome());
    var two := [RunStartedEvent, StepWaitingEvent("a")];
    StartedReachable(httpToolOK);
    MoveStart();
    AfterMove(h, [], Starting(BySync, Running(), G(), NewState(["a"])), Stage([RunStartedEvent], walking), httpToolOK);
    MoveWait();
    AfterMove(h + [move], [RunStartedEvent], walking, Stage(two, stopped), httpToolOK);
    MoveSave();
    AfterMove(h + [move] + [move], two, stopped, SavedStage(), httpToolOK);
  }

  function ResumedEarly(): Pc {
    Loaded(Parked(), [WaitingStep(APPROVAL)], Outcome().pending, true, "", G())
  }

  const RESUME := StartResume(1, "t", "r", true, "", map[])

  lemma EarlyResumeEnabled()
    ensures Enabled(SavedStage(), RESUME) && !Serial(SavedStage(), RESUME)
  {
    ShortNamesTrimmed();
    hide TrimSpace, Outcome;
    assert RunOf(SavedStage().agents[0]) == "r";
  }

  lemma EarlyResumeLoads()
    ensures ApplyStartResume(SavedStage(), RESUME)
            == SavedStage().(agents := map[0 := Written(BySync, Parked()), 1 := ResumedEarly()])
  {
    OneNodeResolves(SavedStage().workflows, "approval");
    hide Resolve, OneNode, OneNodeGraphOf, Outcome, ApprovalRequest;
    NothingMerges(Parked().input);
  }

  lemma EarlyResolution(result: Result<Value, string>)
    ensures var rec := SavedStage().db["r"];
            LocalStep(SavedStage().workflows, rec, ResumedEarly(), result).rec.log
            == rec.log + [ApprovalResolvedEvent("a")]
  {
    hide ApprovalRequest, Decision, Thaw;
    assert Outcome().pending.waitingNodeID == "a";
  }

  lemma EarlyResolutionIllegal()
    ensures !Legal(SavedStage().db["r"].log + [ApprovalResolvedEvent("a")])
  {
    var log := [RunStartedEvent, StepWaitingEvent("a")];
    assert SavedStage().db["r"].log == log;
    assert [] + [RunStartedEvent] == [RunStartedEvent] && [RunStartedEvent] + [StepWaitingEvent("a")] == log;
    hide PhaseOf, SavedStage;
    PhaseAppend([], RunStartedEvent);
    PhaseAppend([RunStartedEvent], StepWaitingEvent("a"));
    PhaseAppend(log, ApprovalResolvedEvent("a"));
    NoEvents();
  }

  lemma NoEvents()
    ensures PhaseOf([]) == Unborn
  {}

  /**
   * A resume is accepted the moment the pending record is stored, and its approval_resolved event then
   * precedes run_waiting_approval: the log leaves the protocol's language.
   */
  lemma EarlyResumeBreaksLog(httpToolOK: Fields -> bool)
    ensures var resume := StartResume(1, "t", "r", true, "", map[]);
            && Reachable(SavedStage(), httpToolOK) && Enabled(SavedStage(), resume)
            && var s := Apply(SavedStage(), resume, httpToolOK);
               && 1 in s.agents && "r" in ApplyMove(s, Move(1, Err(""), 0)).db
               && !Legal(ApplyMove(s, Move(1, Err(""), 0)).db["r"].log)
  {
    SavedReachable(httpToolOK);
    EarlyResumeEnabled();
    EarlyResumeLoads();
    EarlyResolution(Err(""));
    EarlyResolutionIllegal();
    hide Legal, ApplyStartResume, Enabled, Reachable, LocalStep, Outcome;
  }
}
