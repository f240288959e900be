/** The smallest definitions: a single node, an approval or a model call. */
module Singles {
  import opened Text
  import opened Values
  import opened Workflow
  import opened Graphs
  import opened Protocol

  function OneNode(typ: string): Definition {
    Definition("w", 1, [Node("a", typ, map[])], [])
  }

  function OneNodeGraphOf(typ: string): Graph {
    Graph(map["a" := Node("a", typ, map[])], map[], ["a"])
  }

  lemma ShortNamesTrimmed()
    ensures TrimSpace("w") == "w" && TrimSpace("a") == "a"
    ensures TrimSpace("approval") == "approval" && TrimSpace("llm") == "llm" && TrimSpace("t") == "t"
  {}

  lemma NoEdges(p: Edge -> bool)
    ensures Count([], p) == 0
  {}

  lemma OneNodeNodes(typ: string, httpToolOK: Fields -> bool)
    requires typ == "approval" || typ == "llm"
    ensures TrimSpace(OneNode(typ).name) != "" && NodesAccepted(OneNode(typ).nodes, httpToolOK)
  {
    ShortNamesTrimmed();
    hide TrimSpace;
  }

  lemma OneNodeDegrees(typ: string)
    requires typ != "condition"
    ensures var d := OneNode(typ);
            && (forall n :: n in d.nodes ==> DegreesAccepted(n, d.edges))
            && HasRoot(d.nodes, d.edges)
  {
    hide TrimSpace, Count;
    var d := OneNode(typ);
    NoEdges(IntoTrimmed(TrimSpace("a")));
    assert d.nodes[0] in d.nodes;
  }

  lemma OneNodeBranches(typ: string)
    requires typ != "condition"
    ensures forall n :: n in OneNode(typ).nodes ==> BranchesAccepted(n, OneNode(typ).edges)
  {
    hide TrimSpace;
  }

  lemma OneNodeRoots(typ: string)
    ensures Roots(OneNode(typ).nodes, []) == ["a"]
  {
    hide Count;
    NoEdges(Into("a"));
    var nodes := OneNode(typ).nodes;
    assert nodes[..0] == [];
    assert Roots([], []) == [];
  }

  lemma OneNodeAccepted(typ: string, httpToolOK: Fields -> bool)
    requires typ == "approval" || typ == "llm"
    ensures Accepted(OneNode(typ), httpToolOK)
  {
    OneNodeNodes(typ, httpToolOK);
    OneNodeDegrees(typ);
    OneNodeBranches(typ);
    hide TrimSpace, NodesAccepted, DegreesAccepted, HasRoot, BranchesAccepted;
  }

  lemma OneNodeGraph(typ: string)
    ensures GraphOf(OneNode(typ)) == OneNodeGraphOf(typ)
  {
    OneNodeRoots(typ);
    hide Roots, EdgesFrom;
    var nodes := OneNode(typ).nodes;
    assert nodes[..0] == [] && NodesByID([]) == map[];
    assert NodesByID(nodes) == map["a" := Node("a", typ, map[])];
    assert OutboundIndex([]) == map[];
  }

  /** Stored by a tenant named t, it resolves. */
  lemma OneNodeResolves(workflows: Workflows, typ: string)
    requires "w" in workflows && workflows["w"] == StoredWorkflow("t", OneNode(typ))
    ensures Resolve(workflows, "t", "w") == Ok(OneNodeGraphOf(typ))
  {
    OneNodeRoots(typ);
    OneNodeGraph(typ);
    hide Roots, GraphOf, OneNodeGraphOf;
  }

  function StoreOneNode(typ: string): Action {
    CreateWorkflow("w", "t", OneNode(typ))
  }

  function OneNodeSystem(typ: string): System {
    Initial(1).(workflows := map["w" := StoredWorkflow("t", OneNode(typ))])
  }

  lemma OneNodeStored(typ: string, httpToolOK: Fields -> bool)
    requires typ == "approval" || typ == "llm"
    ensures Enabled(Initial(1), StoreOneNode(typ)) && Serial(Initial(1), StoreOneNode(typ))
    ensures Apply(Initial(1), StoreOneNode(typ), httpToolOK) == OneNodeSystem(typ)
  {
    ShortNamesTrimmed();
    OneNodeAccepted(typ, httpToolOK);
    hide Accepted, TrimSpace, OneNode;
  }
}
