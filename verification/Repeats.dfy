/** Exactly when a resumed run can repeat a node: when its roots lead to an approval that is its own successor. */
module Repeats {
  import opened Values
  import opened Workflow
  import opened Graphs
  import opened Engine
  import opened Once
  import opened Resume

  /** The roots and all edges lead to nodes, and every node can be executed or approved. */
  ghost predicate Sound(g: Graph) {
    && g.Valid() && Elements(g.roots) <= g.nodes.Keys
    && (forall id, e :: id in g.nodes && e in g.Outbound(id) ==> e.to in g.nodes)
    && (forall id :: id in g.nodes ==> Executable(g.nodes[id].typ) || g.nodes[id].typ == "approval")
  }

  ghost predicate AlwaysRunsOnce(g: Graph, input: Fields)
    requires g.Valid()
  {
    forall body, decisions :: RanOnce(Pieces(g, body, input, NewState(g.roots), decisions))
  }

  // Where the roots lead

  /** On the way: a node, and an output of it that takes the edge on. */
  datatype Hop = Hop(id: string, output: Value)

  function StopOn(hops: seq<Hop>, id: string, i: nat): string
    requires i <= |hops|
  {
    if i < |hops| then hops[i].id else id
  }

  ghost predicate Route(g: Graph, hops: seq<Hop>, id: string) {
    && StopOn(hops, id, 0) in g.roots
    && forall i: nat {:trigger hops[i]} :: i < |hops| ==>
         StopOn(hops, id, i + 1) in Next(g, g.Node(hops[i].id), hops[i].output)
  }

  /** Some outputs of the nodes on the way take a run from a root to the node. */
  ghost predicate LedTo(g: Graph, id: string) {
    exists hops :: Route(g, hops, id)
  }

  ghost predicate NoSelfApprovalAhead(g: Graph) {
    forall id :: id in g.nodes && g.nodes[id].typ == "approval" && LedTo(g, id) ==> !OwnSuccessor(g, id)
  }

  lemma RootsLedTo(g: Graph, id: string)
    requires id in g.roots
    ensures LedTo(g, id)
  {
    assert Route(g, [], id);
  }

  lemma LedOn(g: Graph, id: string, output: Value, next: string)
    requires LedTo(g, id) && next in Next(g, g.Node(id), output)
    ensures LedTo(g, next)
  {
    hide Next;
    var hops :| Route(g, hops, id);
    var longer := hops + [Hop(id, output)];
    forall i: nat | i < |longer|
      ensures StopOn(longer, next, i + 1) in Next(g, g.Node(longer[i].id), longer[i].output)
    {
      if i < |hops| {
        assert longer[i] == hops[i] && StopOn(longer, next, i + 1) == StopOn(hops, id, i + 1);
      }
    }
    assert StopOn(longer, next, 0) == StopOn(hops, id, 0);
    assert Route(g, longer, next);
  }

  /** Without such an approval nothing is repeated. */
  lemma RunsOnceAhead(g: Graph, body: Body, input: Fields, decisions: seq<Value>)
    requires g.Valid() && Distinct(g.roots) && NoSelfApprovalAhead(g)
    ensures RanOnce(Pieces(g, body, input, NewState(g.roots), decisions))
  {
    hide Route, Pieces, Walk, RanOnce, Tidy, Next, OwnSuccessor;
    var s := iset id | LedTo(g, id);
    forall id, output, next | id in s && next in Next(g, g.Node(id), output) ensures next in s {
      LedOn(g, id, output, next);
    }
    forall id | id in g.roots ensures id in s {
      RootsLedTo(g, id);
    }
    hide LedTo;
    NewStateTidy(g.roots);
    PiecesAreOneRunWithin(g, body, input, NewState(g.roots), Elements(g.roots), decisions, s);
    NodesRunOnce(g, body, input, NewState(g.roots), Elements(g.roots), decisions);
  }

  // A run that is bound to repeat a node

  predicate Repeated(steps: seq<Step>) {
    exists i, j :: 0 <= i < j < |steps| && steps[i].nodeID == steps[j].nodeID
  }

  lemma RepeatedIsNotOnce(o: Outcome)
    requires !o.Broken? && Repeated(o.st.steps)
    ensures !RanOnce(o)
  {
    var i, j :| 0 <= i < j < |o.st.steps| && o.st.steps[i].nodeID == o.st.steps[j].nodeID;
    assert NodeIDs(o.st.steps)[i] == NodeIDs(o.st.steps)[j];
  }

  ghost predicate AlwaysSucceeds(body: Body) {
    forall node, input, outputs :: body(node, input, outputs).Ok?
  }

  /** A node that has a step is queued again, if it does not have two already. */
  ghost predicate Doomed(g: Graph, st: State, id: string) {
    && Elements(st.queue) <= g.nodes.Keys
    && Elements(NodeIDs(st.steps)) == st.executed
    && (Repeated(st.steps) || (id in st.queue && id in st.executed))
  }

  lemma NextKnown(g: Graph, id: string, output: Value)
    requires Sound(g) && id in g.nodes
    ensures Elements(Next(g, g.Node(id), output)) <= g.nodes.Keys
  {
    var node := g.Node(id);
    forall x | x in Next(g, node, output) ensures x in g.nodes {
      var taken := Taken(g, node, output);
      var i :| 0 <= i < |taken| && taken[i].to == x;
      assert taken[i] in g.Outbound(node.id);
    }
  }

  lemma MoreStepsRepeat(steps: seq<Step>, last: Step)
    ensures Repeated(steps) ==> Repeated(steps + [last])
    ensures last.nodeID in NodeIDs(steps) ==> Repeated(steps + [last])
    ensures Elements(NodeIDs(steps + [last])) == Elements(NodeIDs(steps)) + {last.nodeID}
  {
    NodeIDsSnoc(steps, last);
    var all := steps + [last];
    if Repeated(steps) {
      var i, j :| 0 <= i < j < |steps| && steps[i].nodeID == steps[j].nodeID;
      assert all[i].nodeID == all[j].nodeID;
    }
    if last.nodeID in NodeIDs(steps) {
      var i :| 0 <= i < |steps| && NodeIDs(steps)[i] == last.nodeID;
      assert all[i].nodeID == all[|steps|].nodeID;
    }
  }

  lemma CompleteDoomed(g: Graph, st: State, queued: set<string>, output: Value, id: string)
    requires Sound(g) && Doomed(g, st, id) && st.queue != []
    ensures Doomed(g, Complete(g, st, queued, output).0, id)
    ensures st.executed <= Complete(g, st, queued, output).0.executed
  {
    var head := st.queue[0];
    assert head in Elements(st.queue);
    NextKnown(g, head, output);
    MoreStepsRepeat(st.steps, CompletedStep(g.Node(head), output));
    assert st.queue == [head] + st.queue[1..];
    ElementsConcat(st.queue[1..], Added(g, st, queued, output));
    hide Next, Repeated;
  }

  /** How a pass ends that began with a node doomed to repeat. */
  ghost predicate EndsDoomed(g: Graph, st: State, id: string, o: Outcome) {
    && !o.Broken? && st.executed <= o.st.executed
    && (o.Finished? ==> Repeated(o.st.steps))
    && (o.Paused? ==>
          && o.st.steps != [] && o.pending.waitingNodeID in g.nodes && o.pending.executed == o.st.executed
          && (o.pending.waitingNodeID in o.st.executed ==> Repeated(o.st.steps))
          && forall decision :: Doomed(g, Thaw(o.st.steps, o.pending, decision), id))
  }

  lemma ThawRepeats(steps: seq<Step>, pending: Pending, decision: Value)
    requires steps != []
    ensures NodeIDs(Thaw(steps, pending, decision).steps) == NodeIDs(steps)
    ensures Repeated(Thaw(steps, pending, decision).steps) <==> Repeated(steps)
  {
    var thawed := Thaw(steps, pending, decision).steps;
    assert forall i :: 0 <= i < |steps| ==> thawed[i].nodeID == steps[i].nodeID;
  }

  lemma PauseDoomed(g: Graph, st: State, id: string)
    requires Sound(g) && Doomed(g, st, id) && st.queue != []
    ensures EndsDoomed(g, st, id, Paused(Wait(g, st), ApprovalRequest(g.Node(st.queue[0])), Freeze(g, st)))
  {
    var head := st.queue[0];
    assert head in Elements(st.queue);
    NextKnown(g, head, ApprovalRequest(g.Node(head)));
    MoreStepsRepeat(st.steps, WaitingStep(g.Node(head)));
    assert st.queue == [head] + st.queue[1..];
    var steps, pending := Wait(g, st).steps, Freeze(g, st);
    assert Elements(pending.queue) <= g.nodes.Keys;
    assert head != id && id in st.queue ==> id in pending.queue;
    FreezeKeeps(g, st);
    hide Next, Repeated, Freeze, ApprovalRequest;
    forall decision ensures Doomed(g, Thaw(steps, pending, decision), id) {
      ThawRepeats(steps, pending, decision);
    }
  }

  lemma EndsDoomedLater(g: Graph, st: State, st': State, id: string, o: Outcome)
    requires EndsDoomed(g, st', id, o) && st.executed <= st'.executed
    ensures EndsDoomed(g, st, id, o)
  {
    hide Doomed, Repeated;
  }

  lemma HeadSucceeds(g: Graph, body: Body, input: Fields, st: State)
    requires Sound(g) && AlwaysSucceeds(body) && st.queue != [] && st.queue[0] in g.nodes
    requires g.Node(st.queue[0]).typ != "approval"
    ensures HeadResult(g, body, input, st) == body(g.Node(st.queue[0]), input, st.stepOutputs)
    ensures HeadResult(g, body, input, st).Ok?
  {}

  lemma {:induction false} DoomedWalk(g: Graph, body: Body, input: Fields, st: State, queued: set<string>, id: string)
    requires Sound(g) && AlwaysSucceeds(body) && Doomed(g, st, id)
    ensures EndsDoomed(g, st, id, Walk(g, body, input, st, queued, []))
    decreases |Unvisited(g, st)|, Backlog(st.queue, st.executed)
  {
    if st.queue == [] {
      assert Walk(g, body, input, st, queued, []) == Finished(st);
    } else if g.Node(st.queue[0]).typ == "approval" {
      PauseDoomed(g, st, id);
      hide EndsDoomed, Doomed, Freeze, AlwaysSucceeds;
    } else {
      assert st.queue[0] in Elements(st.queue);
      HeadSucceeds(g, body, input, st);
      var result := HeadResult(g, body, input, st);
      CompleteDoomed(g, st, queued, result.value, id);
      hide EndsDoomed, Doomed, Sound, Complete, AlwaysSucceeds;
      TurnDecreases(g, body, input, st, queued, []);
      var next := Complete(g, st, queued, result.value);
      assert TakeTurn(g, st, queued, result, []) == Go(next.0, next.1, []);
      DoomedWalk(g, body, input, next.0, next.1, id);
      EndsDoomedLater(g, st, next.0, id, Walk(g, body, input, next.0, next.1, []));
    }
  }

  lemma ThawVisits(g: Graph, st: State, o: Outcome, decision: Value)
    requires o.Paused? && o.st.steps != [] && o.pending.waitingNodeID in g.nodes
    requires st.executed <= o.st.executed == o.pending.executed && o.pending.waitingNodeID !in o.st.executed
    ensures |Unvisited(g, Thaw(o.st.steps, o.pending, decision))| < |Unvisited(g, st)|
  {
    var st' := Thaw(o.st.steps, o.pending, decision);
    var id := o.pending.waitingNodeID;
    var rest := Unvisited(g, st) - Unvisited(g, st');
    assert id in rest;
    assert Unvisited(g, st) == Unvisited(g, st') + rest;
  }

  /** Some decisions bring the doomed node its second step. */
  lemma {:induction false} DoomedRun(g: Graph, body: Body, input: Fields, st: State, id: string)
    returns (decisions: seq<Value>)
    requires Sound(g) && AlwaysSucceeds(body) && Doomed(g, st, id)
    ensures !RanOnce(Pieces(g, body, input, st, decisions))
    decreases |Unvisited(g, st)|
  {
    DoomedWalk(g, body, input, st, Elements(st.queue), id);
    hide Doomed, RanOnce, Repeated, Walk, Thaw, Sound, Unvisited, AlwaysSucceeds;
    var o := Continue(g, body, input, st);
    if o.Finished? || Repeated(o.st.steps) {
      decisions := [];
      RepeatedIsNotOnce(o);
    } else {
      ThawVisits(g, st, o, Null);
      var rest := DoomedRun(g, body, input, Thaw(o.st.steps, o.pending, Null), id);
      decisions := [Null] + rest;
      assert decisions[1..] == rest;
    }
  }

  // The first self-approval on the way of a run

  lemma SelfApprovalDoomed(g: Graph, st: State, queued: set<string>)
    requires Sound(g) && Tidy(st, queued) && st.queue != [] && Elements(st.queue) <= g.nodes.Keys
    requires g.Node(st.queue[0]).typ == "approval" && OwnSuccessor(g, st.queue[0])
    ensures Wait(g, st).steps != [] && Doomed(g, Thaw(Wait(g, st).steps, Freeze(g, st), Null), st.queue[0])
  {
    var id := st.queue[0];
    assert id in Elements(st.queue);
    SelfApprovalQueuedAgain(g, st, queued, Null);
    NextKnown(g, id, ApprovalRequest(g.Node(id)));
    assert st.queue == [id] + st.queue[1..];
    var steps, pending := Wait(g, st).steps, Freeze(g, st);
    assert Elements(pending.queue) <= g.nodes.Keys;
    FreezeKeeps(g, st);
    MoreStepsRepeat(st.steps, WaitingStep(g.Node(id)));
    ThawRepeats(steps, pending, Null);
    hide Next, Repeated, ApprovalRequest, Freeze;
  }

  lemma PausesAt(g: Graph, body: Body, input: Fields, st: State, decisions: seq<Value>)
    requires g.Valid() && st.queue != [] && g.Node(st.queue[0]).typ == "approval" && decisions != []
    ensures Wait(g, st).steps != []
    ensures Pieces(g, body, input, st, decisions)
            == Pieces(g, body, input, Thaw(Wait(g, st).steps, Freeze(g, st), decisions[0]), decisions[1..])
  {
    assert Continue(g, body, input, st) == Paused(Wait(g, st), ApprovalRequest(g.Node(st.queue[0])), Freeze(g, st));
    hide Freeze, Thaw, ApprovalRequest, Continue;
  }

  lemma SelfApprovalRepeats(g: Graph, body: Body, input: Fields, st: State, queued: set<string>)
    returns (given: seq<Value>)
    requires Sound(g) && AlwaysSucceeds(body) && Tidy(st, queued) && st.queue != []
    requires Elements(st.queue) <= g.nodes.Keys
    requires g.Node(st.queue[0]).typ == "approval" && OwnSuccessor(g, st.queue[0])
    ensures !RanOnce(Pieces(g, body, input, st, given))
  {
    hide *;
    SoundIsValid(g);
    SelfApprovalDoomed(g, st, queued);
    var rest := DoomedRun(g, body, input, Thaw(Wait(g, st).steps, Freeze(g, st), Null), st.queue[0]);
    given := [Null] + rest;
    assert given[1..] == rest;
    PausesAt(g, body, input, st, given);
  }

  /** A run that is to finish with more executed takes a turn that goes on. */
  lemma NotYetFinished(
    g: Graph, body: Body, input: Fields, st: State, queued: set<string>, decisions: seq<Value>, id: string)
    requires g.Valid() && id !in st.executed
    requires var o := Walk(g, body, input, st, queued, decisions); o.Finished? && id in o.st.executed
    ensures st.queue != []
    ensures var turn := TakeTurn(g, st, queued, HeadResult(g, body, input, st), decisions);
            && turn.Go? && (g.Node(st.queue[0]).typ == "approval" ==> decisions != [])
            && turn.st == Complete(g, st, queued, HeadOutput(g, st, HeadResult(g, body, input, st), decisions)).0
            && Walk(g, body, input, st, queued, decisions) == Walk(g, body, input, turn.st, turn.queued, turn.decisions)
  {
    hide Complete, Freeze, Wait, ApprovalRequest, HeadResult;
  }

  /** Going on past the head brings the resumed run to what it would do from there. */
  lemma TurnResumes(
    g: Graph, body: Body, input: Fields, st: State, queued: set<string>, decisions: seq<Value>, rest: seq<Value>)
    returns (given: seq<Value>)
    requires g.Valid() && Tidy(st, queued) && st.queue != []
    requires g.Node(st.queue[0]).typ == "approval" ==> !OwnSuccessor(g, st.queue[0]) && decisions != []
    requires TakeTurn(g, st, queued, HeadResult(g, body, input, st), decisions).Go?
    ensures Pieces(g, body, input, st, given)
            == Pieces(g, body, input, TakeTurn(g, st, queued, HeadResult(g, body, input, st), decisions).st, rest)
  {
    hide Tidy, Pieces, Complete, OwnSuccessor;
    if g.Node(st.queue[0]).typ == "approval" {
      given := [decisions[0]] + rest;
      assert given[1..] == rest;
      PiecesAfterApproval(g, body, input, st, queued, given);
    } else {
      given := rest;
      SameTurn(g, st, queued, HeadResult(g, body, input, st), decisions, rest);
      PiecesAfterTurn(g, body, input, st, queued, rest);
    }
  }

  /** If the uninterrupted run finishes beyond a self-approval, some resumed run repeats a node. */
  lemma {:induction false} MeetsSelfApproval(
    g: Graph, body: Body, input: Fields, st: State, queued: set<string>, decisions: seq<Value>, id: string)
    returns (given: seq<Value>)
    requires Sound(g) && AlwaysSucceeds(body) && Tidy(st, queued) && Elements(st.queue) <= g.nodes.Keys
    requires id in g.nodes && g.nodes[id].typ == "approval" && OwnSuccessor(g, id) && id !in st.executed
    requires var o := Walk(g, body, input, st, queued, decisions); o.Finished? && id in o.st.executed
    ensures !RanOnce(Pieces(g, body, input, st, given))
    decreases |Unvisited(g, st)|, Backlog(st.queue, st.executed)
  {
    assert g.Node(id) == g.nodes[id];
    hide *;
    NotYetFinished(g, body, input, st, queued, decisions, id);
    var head := st.queue[0];
    if g.Node(head).typ == "approval" && OwnSuccessor(g, head) {
      given := SelfApprovalRepeats(g, body, input, st, queued);
    } else {
      var result := HeadResult(g, body, input, st);
      var turn := TakeTurn(g, st, queued, result, decisions);
      TurnDecreases(g, body, input, st, queued, decisions);
      TurnTidy(g, body, input, st, queued, decisions);
      TurnKnown(g, st, queued, HeadOutput(g, st, result, decisions));
      var rest := MeetsSelfApproval(g, body, input, turn.st, turn.queued, turn.decisions, id);
      given := TurnResumes(g, body, input, st, queued, decisions, rest);
    }
  }

  lemma TurnKnown(g: Graph, st: State, queued: set<string>, output: Value)
    requires Sound(g) && st.queue != [] && Elements(st.queue) <= g.nodes.Keys
    ensures var st' := Complete(g, st, queued, output).0;
            Elements(st'.queue) <= g.nodes.Keys && st'.executed == st.executed + {st.queue[0]}
  {
    var id := st.queue[0];
    assert id in Elements(st.queue);
    NextKnown(g, id, output);
    assert st.queue == [id] + st.queue[1..];
    ElementsConcat(st.queue[1..], Added(g, st, queued, output));
    hide Next;
  }

  /** Decisions in hand mean nothing to an ordinary node. */
  lemma SameTurn(
    g: Graph, st: State, queued: set<string>, result: Result<Value, string>, decisions: seq<Value>, others: seq<Value>)
    requires st.queue != [] && g.Node(st.queue[0]).typ != "approval" && TakeTurn(g, st, queued, result, decisions).Go?
    ensures var turn := TakeTurn(g, st, queued, result, decisions);
            TakeTurn(g, st, queued, result, others) == Go(turn.st, turn.queued, others)
  {
    hide Complete;
  }

  // Node bodies that take a run along a route

  /** The output of the last hop from the node. */
  function Chosen(hops: seq<Hop>, id: string): Value {
    if hops == [] then Null
    else if hops[|hops| - 1].id == id then hops[|hops| - 1].output
    else Chosen(hops[..|hops| - 1], id)
  }

  function Following(hops: seq<Hop>): Body {
    (node: Node, input: Fields, outputs: Fields) => Ok(Chosen(hops, node.id))
  }

  lemma {:induction false} LastHop(hops: seq<Hop>, i: nat) returns (j: nat)
    requires i < |hops|
    ensures i <= j < |hops| && hops[j].id == hops[i].id && Chosen(hops, hops[i].id) == hops[j].output
  {
    var k := |hops| - 1;
    if hops[k].id == hops[i].id {
      j := k;
    } else {
      j := LastHop(hops[..k], i);
    }
  }

  /** What is executed are nodes, and those with bodies returned what was chosen. */
  ghost predicate Follows(g: Graph, hops: seq<Hop>, st: State) {
    && st.executed <= g.nodes.Keys
    && forall id :: id in st.stepOutputs && id in g.nodes && Executable(g.nodes[id].typ) ==>
         st.stepOutputs[id] == Chosen(hops, id)
  }

  lemma CompleteFollows(g: Graph, hops: seq<Hop>, st: State, queued: set<string>, output: Value)
    requires Sound(g) && Follows(g, hops, st) && st.queue != [] && st.queue[0] in g.nodes
    requires Executable(g.Node(st.queue[0]).typ) ==> output == Chosen(hops, st.queue[0])
    ensures Follows(g, hops, Complete(g, st, queued, output).0)
  {
    hide Fresh, Next;
  }

  lemma OneLessUnvisited(g: Graph, st: State, st': State, id: string)
    requires id in g.nodes && id !in st.executed && st'.executed == st.executed + {id}
    ensures |Unvisited(g, st')| == |Unvisited(g, st)| - 1
  {
    assert Unvisited(g, st') == Unvisited(g, st) - {id};
  }

  lemma FollowingGoes(g: Graph, hops: seq<Hop>, input: Fields, st: State, queued: set<string>, decisions: seq<Value>)
    requires Sound(g) && st.queue != [] && st.queue[0] in g.nodes && decisions != []
    ensures var result := HeadResult(g, Following(hops), input, st);
            var turn := TakeTurn(g, st, queued, result, decisions);
            && turn.Go? && |turn.decisions| >= |decisions| - 1
            && turn.st == Complete(g, st, queued, HeadOutput(g, st, result, decisions)).0
            && (Executable(g.Node(st.queue[0]).typ) ==>
                HeadOutput(g, st, result, decisions) == Chosen(hops, st.queue[0]))
  {
    hide Complete, Chosen;
  }

  /** With a decision for every node the run finishes. */
  lemma {:induction false} WalkFollows(
    g: Graph, hops: seq<Hop>, input: Fields, st: State, queued: set<string>, decisions: seq<Value>)
    requires Sound(g) && Tidy(st, queued) && Follows(g, hops, st) && Elements(st.queue) <= g.nodes.Keys
    requires |decisions| >= |Unvisited(g, st)|
    ensures var o := Walk(g, Following(hops), input, st, queued, decisions);
            o.Finished? && Follows(g, hops, o.st)
    decreases |Unvisited(g, st)|, Backlog(st.queue, st.executed)
  {
    if st.queue != [] {
      var body, head := Following(hops), st.queue[0];
      assert head in Elements(st.queue);
      HeadTidy(st, queued);
      assert head in Unvisited(g, st);
      SoundIsValid(g);
      hide *;
      FollowingGoes(g, hops, input, st, queued, decisions);
      var turn := TakeTurn(g, st, queued, HeadResult(g, body, input, st), decisions);
      var output := HeadOutput(g, st, HeadResult(g, body, input, st), decisions);
      TurnTidy(g, body, input, st, queued, decisions);
      TurnKnown(g, st, queued, output);
      CompleteFollows(g, hops, st, queued, output);
      OneLessUnvisited(g, st, turn.st, head);
      WalkUnfolds(g, body, input, st, queued, decisions);
      WalkFollows(g, hops, input, turn.st, turn.queued, turn.decisions);
    }
  }

  lemma SoundIsValid(g: Graph)
    requires Sound(g)
    ensures g.Valid()
  {}

  lemma NextAsChosen(g: Graph, hops: seq<Hop>, st: State, id: string)
    requires Sound(g) && Follows(g, hops, st) && id in st.executed && id in st.stepOutputs
    ensures Next(g, g.Node(id), st.stepOutputs[id]) == Next(g, g.Node(id), Chosen(hops, id))
  {
    hide Labelled, BranchOf, Targets, Chosen;
  }

  lemma RouteGoesOn(g: Graph, hops: seq<Hop>, id: string, st: State, j: nat)
    requires Route(g, hops, id) && j < |hops| && hops[j].id in st.executed && hops[j].id in st.stepOutputs
    requires Closed(g, g.roots, st.stepOutputs, st.executed)
    requires Next(g, g.Node(hops[j].id), st.stepOutputs[hops[j].id]) == Next(g, g.Node(hops[j].id), hops[j].output)
    ensures StopOn(hops, id, j + 1) in st.executed
  {
    hide Next;
    assert StopOn(hops, id, j + 1) in Elements(Next(g, g.Node(hops[j].id), hops[j].output));
  }

  lemma HopExecuted(g: Graph, hops: seq<Hop>, id: string, st: State, i: nat) returns (j: nat)
    requires Sound(g) && Route(g, hops, id) && Follows(g, hops, st)
    requires Closed(g, g.roots, st.stepOutputs, st.executed) && st.executed == st.stepOutputs.Keys
    requires i < |hops| && hops[i].id in st.executed
    ensures i <= j < |hops| && StopOn(hops, id, j + 1) in st.executed
  {
    hide *;
    j := LastHop(hops, i);
    NextAsChosen(g, hops, st, hops[j].id);
    RouteGoesOn(g, hops, id, st, j);
  }

  lemma {:induction false} RouteExecuted(g: Graph, hops: seq<Hop>, id: string, st: State, i: nat)
    requires Sound(g) && Route(g, hops, id) && Follows(g, hops, st)
    requires Closed(g, g.roots, st.stepOutputs, st.executed) && st.executed == st.stepOutputs.Keys
    requires i <= |hops| && StopOn(hops, id, i) in st.executed
    ensures id in st.executed
    decreases |hops| - i
  {
    assert StopOn(hops, id, i) == if i < |hops| then hops[i].id else id;
    hide *;
    if i < |hops| {
      var j := HopExecuted(g, hops, id, st, i);
      RouteExecuted(g, hops, id, st, j + 1);
    }
  }

  /** Some node bodies and decisions take a run to any self-approval ahead, and round it. */
  lemma SelfApprovalAheadRepeats(g: Graph, input: Fields, id: string) returns (body: Body, given: seq<Value>)
    requires Sound(g) && Distinct(g.roots)
    requires id in g.nodes && g.nodes[id].typ == "approval" && LedTo(g, id) && OwnSuccessor(g, id)
    ensures !RanOnce(Pieces(g, body, input, NewState(g.roots), given))
  {
    var hops :| Route(g, hops, id);
    hide Pieces, RanOnce, OwnSuccessor, Tidy, Closed, Sound, Chosen, Route, Walk;
    var st, decisions := NewState(g.roots), seq(|g.nodes|, _ => Null);
    body := Following(hops);
    NewStateTidy(g.roots);
    StartFollows(g, hops);
    WalkFollows(g, hops, input, st, Elements(g.roots), decisions);
    ExecutedIsLeastClosed(g, body, input, g.roots, decisions, {});
    var o := Walk(g, body, input, st, Elements(g.roots), decisions);
    RouteStarts(g, hops, id, o.st);
    RouteExecuted(g, hops, id, o.st, 0);
    given := MeetsSelfApproval(g, body, input, st, Elements(g.roots), decisions, id);
  }

  lemma StartFollows(g: Graph, hops: seq<Hop>)
    requires Sound(g)
    ensures var st := NewState(g.roots);
            && Follows(g, hops, st) && Elements(st.queue) <= g.nodes.Keys && |Unvisited(g, st)| <= |g.nodes|
  {
    assert Unvisited(g, NewState(g.roots)) == g.nodes.Keys;
  }

  lemma RouteStarts(g: Graph, hops: seq<Hop>, id: string, st: State)
    requires Route(g, hops, id) && Closed(g, g.roots, st.stepOutputs, st.executed)
    ensures StopOn(hops, id, 0) in st.executed
  {
    assert StopOn(hops, id, 0) in Elements(g.roots);
  }

  lemma AlwaysRunsOnceMeans(g: Graph, input: Fields)
    requires g.Valid()
    requires forall body, decisions :: RanOnce(Pieces(g, body, input, NewState(g.roots), decisions))
    ensures AlwaysRunsOnce(g, input)
  {
    hide RanOnce, Pieces;
  }

  lemma AlwaysRunsOnceAt(g: Graph, body: Body, input: Fields, decisions: seq<Value>)
    requires g.Valid() && AlwaysRunsOnce(g, input)
    ensures RanOnce(Pieces(g, body, input, NewState(g.roots), decisions))
  {
    hide RanOnce, Pieces;
  }

  /**
   * On a graph without dead ends no resumed run repeats a node, whatever its node bodies and decisions, exactly
   * when the roots lead to no approval that is its own successor.
   */
  lemma RunsOnceIff(g: Graph, input: Fields)
    requires Sound(g) && Distinct(g.roots)
    ensures AlwaysRunsOnce(g, input) <==> NoSelfApprovalAhead(g)
  {
    if NoSelfApprovalAhead(g) {
      hide *;
      assert g.Valid() by { SoundIsValid(g); }
      forall body, decisions ensures RanOnce(Pieces(g, body, input, NewState(g.roots), decisions)) {
        RunsOnceAhead(g, body, input, decisions);
      }
      AlwaysRunsOnceMeans(g, input);
    } else {
      var id :| id in g.nodes && g.nodes[id].typ == "approval" && LedTo(g, id) && OwnSuccessor(g, id);
      hide RanOnce, Pieces, NoSelfApprovalAhead, LedTo, OwnSuccessor, AlwaysRunsOnce;
      var body, given := SelfApprovalAheadRepeats(g, input, id);
      if AlwaysRunsOnce(g, input) {
        AlwaysRunsOnceAt(g, body, input, given);
      }
    }
  }
}
