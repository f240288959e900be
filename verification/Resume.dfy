/** Pausing at approvals and resuming is transparent, except at an approval that is its own successor. */
module Resume {
  import opened Values
  import opened Workflow
  import opened Graphs
  import opened Engine
  import opened Once

  predicate OwnSuccessor(g: Graph, id: string) {
    exists e :: e in g.Outbound(id) && e.to == id
  }

  ghost predicate NoSelfApproval(g: Graph) {
    forall id :: id in g.nodes && g.nodes[id].typ == "approval" ==> !OwnSuccessor(g, id)
  }

  lemma OwnSuccessorInNext(g: Graph, id: string, output: Value)
    requires g.Valid() && id in g.nodes && g.nodes[id].typ == "approval"
    ensures id in Next(g, g.nodes[id], output) <==> OwnSuccessor(g, id)
  {
    var edges := g.Outbound(id);
    if OwnSuccessor(g, id) {
      var e :| e in edges && e.to == id;
      var i :| 0 <= i < |edges| && edges[i] == e;
      assert Next(g, g.nodes[id], output)[i] == id;
    }
  }

  lemma FreshSameBlocked(next: seq<string>, a: set<string>, b: set<string>)
    requires forall x :: x in next ==> (x in a <==> x in b)
    ensures Fresh(next, a) == Fresh(next, b)
  {
    if next != [] {
      assert next == [next[0]] + next[1..];
      FreshSameBlocked(next[1..], a, b);
      FreshSameBlocked(next[1..], a + {next[0]}, b + {next[0]});
    }
  }

  lemma FreezeKeeps(g: Graph, st: State)
    requires st.queue != []
    ensures Freeze(g, st).waitingNodeID == g.Node(st.queue[0]).id && Freeze(g, st).executed == st.executed
  {}

  /** Freezing at an approval and thawing with a decision is the turn an ordinary node would take. */
  lemma PauseIsATurn(g: Graph, st: State, queued: set<string>, decision: Value)
    requires g.Valid() && Tidy(st, queued) && st.queue != []
    requires g.Node(st.queue[0]).typ == "approval" && !OwnSuccessor(g, st.queue[0])
    ensures Thaw(Wait(g, st).steps, Freeze(g, st), decision) == Complete(g, st, queued, decision).0
    ensures Elements(Freeze(g, st).queue) == Complete(g, st, queued, decision).1
  {
    var id := st.queue[0];
    var rest := st.queue[1..];
    var next := Next(g, g.Node(id), decision);
    TrailSplit(st);
    OwnSuccessorInNext(g, id, decision);
    FreshSameBlocked(next, st.executed + Elements(rest), st.executed + {id} + (queued - {id}));
    ElementsConcat(rest, Added(g, st, queued, decision));
    assert Wait(g, st).steps[..|st.steps|] == st.steps;
  }

  /** The thawed state is the state an ordinary turn leaves exactly when the approval is not its own successor. */
  lemma ThawedStateExact(g: Graph, st: State, queued: set<string>, decision: Value)
    requires g.Valid() && Tidy(st, queued) && st.queue != []
    requires g.Node(st.queue[0]).typ == "approval"
    ensures Thaw(Wait(g, st).steps, Freeze(g, st), decision) == Complete(g, st, queued, decision).0
            <==> !OwnSuccessor(g, st.queue[0])
  {
    if OwnSuccessor(g, st.queue[0]) {
      SelfApprovalQueuedAgain(g, st, queued, decision);
    } else {
      PauseIsATurn(g, st, queued, decision);
    }
  }

  lemma SelfApprovalQueuedAgain(g: Graph, st: State, queued: set<string>, decision: Value)
    requires g.Valid() && Tidy(st, queued) && st.queue != []
    requires g.Node(st.queue[0]).typ == "approval" && OwnSuccessor(g, st.queue[0])
    ensures st.queue[0] in Freeze(g, st).queue
    ensures st.queue[0] !in Complete(g, st, queued, decision).0.queue
  {
    TrailSplit(st);
    OwnSuccessorInNext(g, st.queue[0], ApprovalRequest(g.Node(st.queue[0])));
  }

  lemma PiecesAfterTurn(g: Graph, body: Body, input: Fields, st: State, queued: set<string>, decisions: seq<Value>)
    requires g.Valid() && Tidy(st, queued) && st.queue != []
    requires g.Node(st.queue[0]).typ != "approval"
    requires TakeTurn(g, st, queued, HeadResult(g, body, input, st), decisions).Go?
    ensures var turn := TakeTurn(g, st, queued, HeadResult(g, body, input, st), decisions);
            Pieces(g, body, input, st, decisions) == Pieces(g, body, input, turn.st, decisions)
  {
    var turn := TakeTurn(g, st, queued, HeadResult(g, body, input, st), decisions);
    TurnTidy(g, body, input, st, queued, decisions);
    assert TakeTurn(g, st, queued, HeadResult(g, body, input, st), []) == turn.(decisions := []);
    assert Continue(g, body, input, st) == Walk(g, body, input, turn.st, turn.queued, []);
  }

  lemma PiecesAfterApproval(g: Graph, body: Body, input: Fields, st: State, queued: set<string>, decisions: seq<Value>)
    requires g.Valid() && Tidy(st, queued) && st.queue != [] && decisions != []
    requires g.Node(st.queue[0]).typ == "approval" && !OwnSuccessor(g, st.queue[0])
    ensures Pieces(g, body, input, st, decisions)
            == Pieces(g, body, input, Complete(g, st, queued, decisions[0]).0, decisions[1..])
  {
    PauseIsATurn(g, st, queued, decisions[0]);
    assert Continue(g, body, input, st) == Paused(Wait(g, st), ApprovalRequest(g.Node(st.queue[0])), Freeze(g, st));
  }

  /** Whatever its nodes return, the set's edges stay within it. */
  ghost predicate Keeps(g: Graph, s: iset<string>) {
    forall id, output, x :: id in s && x in Next(g, g.Node(id), output) ==> x in s
  }

  ghost predicate NoSelfApprovalIn(g: Graph, s: iset<string>) {
    forall id :: id in g.nodes && id in s && g.nodes[id].typ == "approval" ==> !OwnSuccessor(g, id)
  }

  lemma CompleteKeeps(g: Graph, st: State, queued: set<string>, output: Value, s: iset<string>)
    requires Keeps(g, s) && st.queue != [] && forall x :: x in st.queue ==> x in s
    ensures forall x :: x in Complete(g, st, queued, output).0.queue ==> x in s
  {
    hide Next;
  }

  /** The same of a run that stays within a set of nodes without self-approvals. */
  lemma {:induction false} PiecesAreOneRunWithin(
    g: Graph, body: Body, input: Fields, st: State, queued: set<string>, decisions: seq<Value>, s: iset<string>)
    requires g.Valid() && Tidy(st, queued) && NoSelfApprovalIn(g, s) && Keeps(g, s)
    requires forall x :: x in st.queue ==> x in s
    ensures Pieces(g, body, input, st, decisions) == Walk(g, body, input, st, queued, decisions)
    decreases |Unvisited(g, st)|, Backlog(st.queue, st.executed)
  {
    hide Tidy, Complete, Pieces, Keeps;
    if st.queue == [] {
      PiecesOfNothing(g, body, input, st, decisions);
    } else {
      match TakeTurn(g, st, queued, HeadResult(g, body, input, st), decisions)
      case Stop(outcome) =>
        PiecesAtStop(g, body, input, st, queued, decisions);
      case Go(st', queued', left) =>
        if g.Node(st.queue[0]).typ == "approval" {
          PiecesAfterApproval(g, body, input, st, queued, decisions);
        } else {
          PiecesAfterTurn(g, body, input, st, queued, decisions);
        }
        TurnDecreases(g, body, input, st, queued, decisions);
        TurnTidy(g, body, input, st, queued, decisions);
        CompleteKeeps(g, st, queued, HeadOutput(g, st, HeadResult(g, body, input, st), decisions), s);
        PiecesAreOneRunWithin(g, body, input, st', queued', left, s);
    }
  }

  /**
   * A run cut at its approvals, each approved with no extra input, ends like the uninterrupted run in
   * which each approval is an ordinary node that returns its decision: same steps, outputs, executed
   * set, last node and queue, and the same ending.
   */
  lemma PiecesAreOneRun(g: Graph, body: Body, input: Fields, st: State, queued: set<string>, decisions: seq<Value>)
    requires g.Valid() && Tidy(st, queued) && NoSelfApproval(g)
    ensures Pieces(g, body, input, st, decisions) == Walk(g, body, input, st, queued, decisions)
  {
    hide Tidy, Pieces, Walk, Next;
    PiecesAreOneRunWithin(g, body, input, st, queued, decisions, iset id | id in g.nodes || id !in g.nodes);
  }

  /** An uninterrupted run that has used up its decisions at an approval goes on, given one more, as the resumed one. */
  lemma {:induction false} WalkResumes(
    g: Graph, body: Body, input: Fields, st: State, queued: set<string>, decisions: seq<Value>, decision: Value)
    requires g.Valid() && Tidy(st, queued) && NoSelfApproval(g)
    requires Walk(g, body, input, st, queued, decisions).Paused?
    ensures var o := Walk(g, body, input, st, queued, decisions);
            && o.st.steps != []
            && Walk(g, body, input, st, queued, decisions + [decision])
               == Continue(g, body, input, Thaw(o.st.steps, o.pending, decision))
    decreases |Unvisited(g, st)|, Backlog(st.queue, st.executed)
  {
    hide Tidy, Complete, Unvisited, Thaw, Freeze, NoSelfApproval;
    var result := HeadResult(g, body, input, st);
    match TakeTurn(g, st, queued, result, decisions)
    case Stop(outcome) =>
      PausedHere(g, st, queued, result, decisions);
      WalkPastApproval(g, body, input, st, queued, decision);
      assert [] + [decision] == [decision];
    case Go(st', queued', left) =>
      TurnDecreases(g, body, input, st, queued, decisions);
      TurnTidy(g, body, input, st, queued, decisions);
      TurnWithMore(g, st, queued, result, decisions, decision);
      WalkResumes(g, body, input, st', queued', left, decision);
  }

  lemma PausedHere(g: Graph, st: State, queued: set<string>, result: Result<Value, string>, decisions: seq<Value>)
    requires st.queue != [] && TakeTurn(g, st, queued, result, decisions).Stop?
    requires TakeTurn(g, st, queued, result, decisions).outcome.Paused?
    ensures decisions == [] && g.Node(st.queue[0]).typ == "approval"
    ensures TakeTurn(g, st, queued, result, decisions).outcome
         == Paused(Wait(g, st), ApprovalRequest(g.Node(st.queue[0])), Freeze(g, st))
    ensures Wait(g, st).steps != []
  {
    hide Freeze, ApprovalRequest, Complete;
  }

  lemma WalkPastApproval(g: Graph, body: Body, input: Fields, st: State, queued: set<string>, decision: Value)
    requires g.Valid() && Tidy(st, queued) && NoSelfApproval(g) && st.queue != []
    requires g.Node(st.queue[0]).typ == "approval"
    ensures Walk(g, body, input, st, queued, [decision])
         == Continue(g, body, input, Thaw(Wait(g, st).steps, Freeze(g, st), decision))
  {
    assert st.queue[0] in g.nodes;
    PauseIsATurn(g, st, queued, decision);
    assert [decision][1..] == [];
    hide Complete, Thaw, Freeze, Tidy, Wait;
    var st' := Complete(g, st, queued, decision).0;
    assert TakeTurn(g, st, queued, HeadResult(g, body, input, st), [decision])
        == Go(st', Complete(g, st, queued, decision).1, []);
  }

  lemma TurnWithMore(
    g: Graph, st: State, queued: set<string>, result: Result<Value, string>, decisions: seq<Value>, decision: Value)
    requires st.queue != [] && TakeTurn(g, st, queued, result, decisions).Go?
    ensures var turn := TakeTurn(g, st, queued, result, decisions);
            TakeTurn(g, st, queued, result, decisions + [decision])
            == Go(turn.st, turn.queued, turn.decisions + [decision])
  {
    hide Complete;
    if decisions != [] {
      assert (decisions + [decision])[1..] == decisions[1..] + [decision];
    }
  }

  lemma PiecesOfNothing(g: Graph, body: Body, input: Fields, st: State, decisions: seq<Value>)
    requires g.Valid() && st.queue == []
    ensures Pieces(g, body, input, st, decisions) == Finished(st)
  {}

  lemma PiecesAtStop(g: Graph, body: Body, input: Fields, st: State, queued: set<string>, decisions: seq<Value>)
    requires g.Valid() && Tidy(st, queued) && st.queue != []
    requires TakeTurn(g, st, queued, HeadResult(g, body, input, st), decisions).Stop?
    ensures Pieces(g, body, input, st, decisions)
            == TakeTurn(g, st, queued, HeadResult(g, body, input, st), decisions).outcome
  {}

  /** The whole run of an accepted definition, started from its roots. */
  lemma PauseResumeTransparent(
    d: Definition, httpToolOK: Fields -> bool, body: Body, input: Fields, decisions: seq<Value>)
    requires Accepted(d, httpToolOK)
    ensures var g := GraphOf(d);
            Pieces(g, body, input, NewState(g.roots), decisions)
            == Walk(g, body, input, NewState(g.roots), Elements(g.roots), decisions)
  {
    var g := GraphOf(d);
    AcceptedRootsDistinct(d.nodes, d.edges, httpToolOK);
    NewStateTidy(g.roots);
    AcceptedNoSelfApproval(d, httpToolOK);
    PiecesAreOneRun(g, body, input, NewState(g.roots), Elements(g.roots), decisions);
  }

  /** The validator compares trimmed endpoints, so it rules out self-edges of untrimmed identifiers too. */
  lemma AcceptedNoSelfApproval(d: Definition, httpToolOK: Fields -> bool)
    requires Accepted(d, httpToolOK)
    ensures NoSelfApproval(GraphOf(d))
  {
    var g := GraphOf(d);
    forall id, e | id in g.nodes && e in g.Outbound(id) ensures e.to != id {
      OutboundIsEdgesFrom(d, id);
      EdgesFromMember(d.edges, id, e);
      assert EdgeAccepted(e, TrimmedIDs(d.nodes));
    }
  }

  /**
   * At an approval that is its own only successor one approval leaves the run waiting at the same node,
   * and it takes two, hence two steps, to finish; the uninterrupted run finishes after one.
   */
  lemma SelfApprovalRunsTwice(g: Graph, body: Body, input: Fields, st: State, id: string, first: Value, second: Value)
    requires g.Valid() && id in g.nodes && g.nodes[id].typ == "approval"
    requires |g.Outbound(id)| == 1 && g.Outbound(id)[0].to == id
    requires st.queue == [id] && id !in st.executed
    ensures Walk(g, body, input, st, {id}, [first]).Finished?
    ensures Pieces(g, body, input, st, [first]).Paused?
    ensures var o := Pieces(g, body, input, st, [first, second]);
            o.Finished? && o.st.steps
            == st.steps + [CompletedStep(g.nodes[id], first), CompletedStep(g.nodes[id], second)]
  {
    hide Freeze, Thaw, Walk, Continue;
    SelfPause(g, body, input, st, id, first);
    var once := Thaw(Wait(g, st).steps, Freeze(g, st), first);
    SelfPause(g, body, input, once, id, second);
    var twice := Thaw(Wait(g, once).steps, Freeze(g, once), second);
    assert [first, second][1..] == [second] && [second][1..] == [];
    PiecesOfNothing(g, body, input, twice, []);
    assert Pieces(g, body, input, once, [second]) == Finished(twice);
    SelfTurn(g, body, input, st, id, first);
  }

  lemma SelfFresh(g: Graph, id: string)
    requires g.Valid() && id in g.nodes && g.nodes[id].typ == "approval"
    requires |g.Outbound(id)| == 1 && g.Outbound(id)[0].to == id
    ensures forall o :: Next(g, g.nodes[id], o) == [id]
    ensures forall blocked :: Fresh([id], blocked) == if id in blocked then [] else [id]
  {
    assert [id][1..] == [];
  }

  lemma SelfPause(g: Graph, body: Body, input: Fields, st: State, id: string, decision: Value)
    requires g.Valid() && id in g.nodes && g.nodes[id].typ == "approval"
    requires |g.Outbound(id)| == 1 && g.Outbound(id)[0].to == id
    requires st.queue == [id]
    ensures Continue(g, body, input, st) == Paused(Wait(g, st), ApprovalRequest(g.nodes[id]), Freeze(g, st))
    ensures var st' := Thaw(Wait(g, st).steps, Freeze(g, st), decision);
            && st'.queue == (if id in st.executed then [] else [id])
            && id in st'.executed
            && st'.steps == st.steps + [CompletedStep(g.nodes[id], decision)]
  {
    SelfFreeze(g, st, id);
    hide Freeze, ApprovalRequest, Next;
  }

  lemma SelfFreeze(g: Graph, st: State, id: string)
    requires g.Valid() && id in g.nodes && g.nodes[id].typ == "approval"
    requires |g.Outbound(id)| == 1 && g.Outbound(id)[0].to == id
    requires st.queue == [id]
    ensures Freeze(g, st) == Pending(id, if id in st.executed then [] else [id], st.stepOutputs, st.executed)
  {
    SelfFresh(g, id);
    hide Next, Fresh, ApprovalRequest;
    assert st.queue[1..] == [] && [] + [id] == [id];
    assert Elements(st.queue[1..]) == {} && st.executed + {} == st.executed;
  }

  lemma SelfTurn(g: Graph, body: Body, input: Fields, st: State, id: string, decision: Value)
    requires g.Valid() && id in g.nodes && g.nodes[id].typ == "approval"
    requires |g.Outbound(id)| == 1 && g.Outbound(id)[0].to == id
    requires st.queue == [id]
    ensures Walk(g, body, input, st, {id}, [decision]).Finished?
  {
    SelfFresh(g, id);
    assert Complete(g, st, {id}, decision).0.queue == [];
  }
}
