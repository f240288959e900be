/** Workflow definitions and the validator that guards the repository (`internal/workflow/service.go`). */
module Workflow {
  import opened Text
  import opened Values

  datatype Node = Node(id: string, typ: string, config: Fields)

  datatype Edge = Edge(from: string, to: string, condition: string)

  datatype Definition = Definition(name: string, version: int, nodes: seq<Node>, edges: seq<Edge>)

  datatype Field =
    | NameField
    | VersionField
    | NodesField
    | EdgesField
    | NodeID(index: nat)
    | NodeType(index: nat)
    | NodeConfig(index: nat)
    | EdgeAt(index: nat)
    | EdgeFrom(index: nat)
    | EdgeTo(index: nat)

  datatype ValidationError = ValidationError(field: Field, message: string)

  predicate SupportedNodeType(t: string) {
    t == "retrieve_documents" || t == "llm" || t == "condition" ||
    t == "http_tool" || t == "approval" || t == "audit_log"
  }

  // Counting edges

  function Count(edges: seq<Edge>, p: Edge -> bool): nat {
    if edges == [] then 0
    else Count(edges[..|edges| - 1], p) + if p(edges[|edges| - 1]) then 1 else 0
  }

  function Into(id: string): Edge -> bool { (e: Edge) => e.to == id }

  function IntoTrimmed(id: string): Edge -> bool { (e: Edge) => TrimSpace(e.to) == id }

  function OutOfTrimmed(id: string): Edge -> bool { (e: Edge) => TrimSpace(e.from) == id }

  lemma {:induction false} CountMonotone(edges: seq<Edge>, p: Edge -> bool, q: Edge -> bool)
    requires forall e :: e in edges && p(e) ==> q(e)
    ensures Count(edges, p) <= Count(edges, q)
  {
    if edges != [] {
      assert edges[|edges| - 1] in edges;
      CountMonotone(edges[..|edges| - 1], p, q);
    }
  }

  /** Two different positions that satisfy `p` make the count at least two. */
  lemma {:induction false} CountTwo(edges: seq<Edge>, p: Edge -> bool, i: nat, j: nat)
    requires i < j < |edges| && p(edges[i]) && p(edges[j])
    ensures Count(edges, p) >= 2
  {
    if j == |edges| - 1 {
      CountOne(edges[..j], p, i);
    } else {
      CountTwo(edges[..|edges| - 1], p, i, j);
    }
  }

  lemma {:induction false} CountOne(edges: seq<Edge>, p: Edge -> bool, i: nat)
    requires i < |edges| && p(edges[i])
    ensures Count(edges, p) >= 1
  {
    if i < |edges| - 1 {
      CountOne(edges[..|edges| - 1], p, i);
    }
  }

  // What the validator accepts, stated without its loops

  predicate LabelIs(e: Edge, branch: string) {
    ToLower(TrimSpace(e.condition)) == branch
  }

  ghost predicate NodesAccepted(nodes: seq<Node>, httpToolOK: Fields -> bool) {
    && (forall i :: 0 <= i < |nodes| ==> NodeAccepted(nodes[i], httpToolOK))
    && (forall i, j :: 0 <= i < j < |nodes| ==> TrimSpace(nodes[i].id) != TrimSpace(nodes[j].id))
  }

  predicate NodeAccepted(n: Node, httpToolOK: Fields -> bool) {
    && TrimSpace(n.id) != ""
    && SupportedNodeType(TrimSpace(n.typ))
    && (n.typ == "http_tool" ==> httpToolOK(n.config))
  }

  function TrimmedIDs(nodes: seq<Node>): set<string> {
    set i | 0 <= i < |nodes| :: TrimSpace(nodes[i].id)
  }

  predicate EdgeAccepted(e: Edge, ids: set<string>) {
    var from, to := TrimSpace(e.from), TrimSpace(e.to);
    from != "" && to != "" && from != to && from in ids && to in ids
  }

  predicate DegreesAccepted(n: Node, edges: seq<Edge>) {
    && Count(edges, IntoTrimmed(TrimSpace(n.id))) <= 1
    && (n.typ == "condition" ==> Count(edges, OutOfTrimmed(TrimSpace(n.id))) >= 2)
  }

  ghost predicate BranchesAccepted(n: Node, edges: seq<Edge>) {
    n.typ == "condition" ==>
      && (forall e :: e in edges && e.from == n.id ==> LabelIs(e, "true") || LabelIs(e, "false"))
      && (exists e :: e in edges && e.from == n.id && LabelIs(e, "true"))
      && (exists e :: e in edges && e.from == n.id && LabelIs(e, "false"))
  }

  ghost predicate HasRoot(nodes: seq<Node>, edges: seq<Edge>) {
    exists n :: n in nodes && Count(edges, IntoTrimmed(TrimSpace(n.id))) == 0
  }

  ghost predicate Accepted(d: Definition, httpToolOK: Fields -> bool) {
    && TrimSpace(d.name) != ""
    && d.version > 0
    && d.nodes != []
    && NodesAccepted(d.nodes, httpToolOK)
    && (forall e :: e in d.edges ==> EdgeAccepted(e, TrimmedIDs(d.nodes)))
    && (forall n :: n in d.nodes ==> DegreesAccepted(n, d.edges))
    && HasRoot(d.nodes, d.edges)
    && (forall n :: n in d.nodes ==> BranchesAccepted(n, d.edges))
  }

  /** Every identifier is stored the way the engine will compare it. */
  ghost predicate TrimmedDefinition(d: Definition) {
    && (forall n :: n in d.nodes ==> Trimmed(n.id) && Trimmed(n.typ))
    && (forall e :: e in d.edges ==> Trimmed(e.from) && Trimmed(e.to))
  }

  // The same rules said of the definition itself, without counting and without the validator's vocabulary

  ghost predicate NodeRules(nodes: seq<Node>, httpToolOK: Fields -> bool) {
    && (forall n :: n in nodes ==>
          && TrimSpace(n.id) != ""
          && TrimSpace(n.typ) in {"retrieve_documents", "llm", "condition", "http_tool", "approval", "audit_log"}
          && (n.typ == "http_tool" ==> httpToolOK(n.config)))
    && (forall i, j :: 0 <= i < j < |nodes| ==> TrimSpace(nodes[i].id) != TrimSpace(nodes[j].id))
  }

  ghost predicate EndpointRules(nodes: seq<Node>, edges: seq<Edge>) {
    forall e :: e in edges ==>
      && TrimSpace(e.from) != TrimSpace(e.to)
      && (exists n :: n in nodes && TrimSpace(n.id) == TrimSpace(e.from))
      && (exists n :: n in nodes && TrimSpace(n.id) == TrimSpace(e.to))
  }

  /** No two edges enter the same node, and some node is entered by none. */
  ghost predicate NothingMeets(edges: seq<Edge>) {
    forall i, j :: 0 <= i < j < |edges| ==> TrimSpace(edges[i].to) != TrimSpace(edges[j].to)
  }

  ghost predicate SomeStart(nodes: seq<Node>, edges: seq<Edge>) {
    exists n :: n in nodes && forall e :: e in edges ==> TrimSpace(e.to) != TrimSpace(n.id)
  }

  /** Every edge of a condition is labelled, in any case and between any white space, and both labels occur. */
  ghost predicate BranchRules(nodes: seq<Node>, edges: seq<Edge>) {
    forall n :: n in nodes && n.typ == "condition" ==>
      && (forall e :: e in edges && e.from == n.id ==>
            EqualFold(TrimSpace(e.condition), "true") || EqualFold(TrimSpace(e.condition), "false"))
      && (exists e :: e in edges && e.from == n.id && EqualFold(TrimSpace(e.condition), "true"))
      && (exists e :: e in edges && e.from == n.id && EqualFold(TrimSpace(e.condition), "false"))
  }

  lemma {:induction false} CountFinds(edges: seq<Edge>, p: Edge -> bool)
    ensures Count(edges, p) == 0 <==> forall e :: e in edges ==> !p(e)
    ensures Count(edges, p) <= 1 <==> forall i, j :: 0 <= i < j < |edges| ==> !p(edges[i]) || !p(edges[j])
  {
    if edges != [] {
      var k := |edges| - 1;
      CountFinds(edges[..k], p);
      assert edges == edges[..k] + [edges[k]];
      assert forall i :: 0 <= i < k ==> edges[..k][i] == edges[i];
      if p(edges[k]) && Count(edges[..k], p) > 0 {
        var e :| e in edges[..k] && p(e);
        var i :| 0 <= i < k && edges[i] == e;
        CountTwo(edges, p, i, k);
      }
    }
  }

  lemma LabelFolds(e: Edge, branch: string)
    requires branch == "true" || branch == "false"
    ensures LabelIs(e, branch) <==> EqualFold(TrimSpace(e.condition), branch)
  {
    hide TrimSpace;
    assert ToLower(branch) == branch;
  }

  lemma LabelsFold(edges: seq<Edge>)
    ensures forall e :: e in edges ==>
              && (LabelIs(e, "true") <==> EqualFold(TrimSpace(e.condition), "true"))
              && (LabelIs(e, "false") <==> EqualFold(TrimSpace(e.condition), "false"))
              && !(LabelIs(e, "true") && LabelIs(e, "false"))
  {
    forall e | e in edges
      ensures LabelIs(e, "true") <==> EqualFold(TrimSpace(e.condition), "true")
      ensures LabelIs(e, "false") <==> EqualFold(TrimSpace(e.condition), "false")
    {
      LabelFolds(e, "true");
      LabelFolds(e, "false");
    }
    hide ToLower, TrimSpace;
  }

  lemma BranchesMean(nodes: seq<Node>, edges: seq<Edge>)
    ensures BranchRules(nodes, edges) <==> forall n :: n in nodes ==> BranchesAccepted(n, edges)
  {
    LabelsFold(edges);
    hide LabelIs, EqualFold, TrimSpace;
  }

  /** A condition with both branches has two edges, so that rule of the validator follows from the other one. */
  lemma BranchesMakeTwo(n: Node, edges: seq<Edge>)
    requires n.typ == "condition" && BranchesAccepted(n, edges)
    ensures Count(edges, OutOfTrimmed(TrimSpace(n.id))) >= 2
  {
    LabelsFold(edges);
    hide LabelIs, EqualFold, TrimSpace, Count;
    var e :| e in edges && e.from == n.id && LabelIs(e, "true");
    var f :| f in edges && f.from == n.id && LabelIs(f, "false");
    var i :| 0 <= i < |edges| && edges[i] == e;
    var j :| 0 <= j < |edges| && edges[j] == f;
    if i < j {
      CountTwo(edges, OutOfTrimmed(TrimSpace(n.id)), i, j);
    } else {
      CountTwo(edges, OutOfTrimmed(TrimSpace(n.id)), j, i);
    }
  }

  ghost predicate EnteredTwice(edges: seq<Edge>, id: string) {
    exists i, j :: 0 <= i < j < |edges| && TrimSpace(edges[i].to) == id && TrimSpace(edges[j].to) == id
  }

  lemma EnteredTwiceMeans(edges: seq<Edge>, id: string)
    ensures Count(edges, IntoTrimmed(id)) <= 1 <==> !EnteredTwice(edges, id)
  {
    CountFinds(edges, IntoTrimmed(id));
    hide Count, TrimSpace;
  }

  lemma EntersOnce(nodes: seq<Node>, edges: seq<Edge>)
    requires forall e :: e in edges ==> TrimSpace(e.to) in TrimmedIDs(nodes)
    ensures (forall n :: n in nodes ==> Count(edges, IntoTrimmed(TrimSpace(n.id))) <= 1) <==> NothingMeets(edges)
  {
    hide Count, TrimSpace, EnteredTwice;
    forall n | n in nodes
      ensures Count(edges, IntoTrimmed(TrimSpace(n.id))) <= 1 <==> !EnteredTwice(edges, TrimSpace(n.id))
    {
      EnteredTwiceMeans(edges, TrimSpace(n.id));
    }
    hide NothingMeets;
    NothingMeetsMeans(nodes, edges);
  }

  lemma NothingMeetsMeans(nodes: seq<Node>, edges: seq<Edge>)
    requires forall e :: e in edges ==> TrimSpace(e.to) in TrimmedIDs(nodes)
    ensures (forall n :: n in nodes ==> !EnteredTwice(edges, TrimSpace(n.id))) <==> NothingMeets(edges)
  {
    hide TrimSpace;
    forall i, j | 0 <= i < j < |edges| && TrimSpace(edges[i].to) == TrimSpace(edges[j].to)
      ensures exists n :: n in nodes && EnteredTwice(edges, TrimSpace(n.id))
    {
      assert edges[i] in edges;
      var k :| 0 <= k < |nodes| && TrimSpace(nodes[k].id) == TrimSpace(edges[i].to);
      assert nodes[k] in nodes && EnteredTwice(edges, TrimSpace(nodes[k].id));
    }
  }

  lemma RootsMean(nodes: seq<Node>, edges: seq<Edge>)
    ensures HasRoot(nodes, edges) <==> SomeStart(nodes, edges)
  {
    hide Count, TrimSpace;
    forall n | n in nodes
      ensures Count(edges, IntoTrimmed(TrimSpace(n.id))) == 0 <==>
              forall e :: e in edges ==> TrimSpace(e.to) != TrimSpace(n.id)
    {
      CountFinds(edges, IntoTrimmed(TrimSpace(n.id)));
    }
  }

  lemma NodesMean(nodes: seq<Node>, httpToolOK: Fields -> bool)
    ensures NodesAccepted(nodes, httpToolOK) <==> NodeRules(nodes, httpToolOK)
  {
    hide TrimSpace;
  }

  lemma EndpointsMean(nodes: seq<Node>, edges: seq<Edge>)
    requires forall n :: n in nodes ==> TrimSpace(n.id) != ""
    ensures AllEdgesOK(edges, TrimmedIDs(nodes)) <==> EndpointRules(nodes, edges)
    ensures AllEdgesOK(edges, TrimmedIDs(nodes)) ==> forall e :: e in edges ==> TrimSpace(e.to) in TrimmedIDs(nodes)
  {
    hide TrimSpace;
    forall id ensures id in TrimmedIDs(nodes) <==> exists n :: n in nodes && TrimSpace(n.id) == id {
      if id in TrimmedIDs(nodes) {
        var k :| 0 <= k < |nodes| && TrimSpace(nodes[k].id) == id;
        assert nodes[k] in nodes;
      }
    }
  }

  lemma DegreesMean(nodes: seq<Node>, edges: seq<Edge>)
    requires forall n :: n in nodes ==> BranchesAccepted(n, edges)
    ensures (forall n :: n in nodes ==> DegreesAccepted(n, edges)) <==>
            forall n :: n in nodes ==> Count(edges, IntoTrimmed(TrimSpace(n.id))) <= 1
  {
    hide TrimSpace, Count, BranchesAccepted;
    forall n | n in nodes && n.typ == "condition"
      ensures Count(edges, OutOfTrimmed(TrimSpace(n.id))) >= 2
    {
      BranchesMakeTwo(n, edges);
    }
  }

  lemma EdgesMean(nodes: seq<Node>, edges: seq<Edge>)
    requires forall n :: n in nodes ==> TrimSpace(n.id) != "" && BranchesAccepted(n, edges)
    ensures EndpointRules(nodes, edges) && NothingMeets(edges) && SomeStart(nodes, edges) <==>
              && AllEdgesOK(edges, TrimmedIDs(nodes))
              && (forall n :: n in nodes ==> DegreesAccepted(n, edges))
              && HasRoot(nodes, edges)
  {
    hide TrimSpace, Count, BranchesAccepted, DegreesAccepted, HasRoot, TrimmedIDs, NothingMeets, SomeStart,
         EndpointRules, AllEdgesOK;
    RootsMean(nodes, edges);
    DegreesMean(nodes, edges);
    EndpointsMean(nodes, edges);
    if AllEdgesOK(edges, TrimmedIDs(nodes)) {
      EntersOnce(nodes, edges);
    }
  }

  ghost predicate MeetsRules(d: Definition, httpToolOK: Fields -> bool) {
    && TrimSpace(d.name) != "" && d.version > 0
    && NodeRules(d.nodes, httpToolOK)
    && EndpointRules(d.nodes, d.edges) && NothingMeets(d.edges) && SomeStart(d.nodes, d.edges)
    && BranchRules(d.nodes, d.edges)
  }

  /** The validator's rules, degrees and all, are these. */
  lemma AcceptedMeans(d: Definition, httpToolOK: Fields -> bool)
    ensures Accepted(d, httpToolOK) <==> MeetsRules(d, httpToolOK)
  {
    NodesMean(d.nodes, httpToolOK);
    BranchesMean(d.nodes, d.edges);
    NamedNodes(d.nodes, httpToolOK);
    EdgesMeaning(d.edges, TrimmedIDs(d.nodes));
    if SomeStart(d.nodes, d.edges) {
      assert d.nodes != [];
    }
    hide TrimSpace, BranchesAccepted, DegreesAccepted, EdgeAccepted, BranchRules, NodeRules, NodesAccepted, HasRoot,
         EndpointRules, NothingMeets, SomeStart, AllEdgesOK, TrimmedIDs;
    if NodeRules(d.nodes, httpToolOK) && BranchRules(d.nodes, d.edges) {
      EdgesMean(d.nodes, d.edges);
    }
  }

  lemma NamedNodes(nodes: seq<Node>, httpToolOK: Fields -> bool)
    ensures NodeRules(nodes, httpToolOK) ==> forall n :: n in nodes ==> TrimSpace(n.id) != ""
  {
    hide TrimSpace;
  }

  // The validator

  /** `Valid` is reported exactly for the definitions described by `Accepted`. */
  method ValidateDefinition(d: Definition, httpToolOK: Fields -> bool)
    returns (valid: bool, errors: seq<ValidationError>)
    ensures valid <==> errors == []
    ensures valid <==> Accepted(d, httpToolOK)
    ensures valid <==> MeetsRules(d, httpToolOK)
  {
    AcceptedMeans(d, httpToolOK);
    hide NodesAccepted, EdgeAccepted, DegreesAccepted, HasRoot, BranchesAccepted, NodeDegreesOK, Indexes, Get, Count,
         TrimSpace, MeetsRules;
    errors := [];
    if TrimSpace(d.name) == "" {
      errors := errors + [ValidationError(NameField, "name is required")];
    }
    if d.version <= 0 {
      errors := errors + [ValidationError(VersionField, "version must be greater than zero")];
    }
    if |d.nodes| == 0 {
      errors := errors + [ValidationError(NodesField, "at least one node is required")];
    }
    var nodeErrors, nodeIDs := ValidateNodes(d.nodes, httpToolOK);
    var edgeErrors, incoming, outgoing := ValidateEdges(d.edges, nodeIDs.Keys);
    var degreeErrors := ValidateDegrees(nodeIDs, incoming, outgoing);
    var branchErrors := ValidateBranches(d);
    if nodeErrors == [] {
      IndexKeys(nodeIDs, d.nodes);
      if edgeErrors == [] {
        DegreesByNode(d, nodeIDs, incoming, outgoing);
      }
    }
    errors := errors + nodeErrors + edgeErrors + degreeErrors + branchErrors;
    valid := |errors| == 0;
  }

  /** `nodeIDs` indexes the nodes by trimmed identifier. */
  ghost predicate Indexes(nodeIDs: map<string, Node>, nodes: seq<Node>) {
    && nodeIDs.Keys == TrimmedIDs(nodes)
    && (forall n :: n in nodes ==> TrimSpace(n.id) in nodeIDs && nodeIDs[TrimSpace(n.id)] == n)
    && (forall id :: id in nodeIDs ==> nodeIDs[id] in nodes && TrimSpace(nodeIDs[id].id) == id)
  }

  lemma IndexKeys(nodeIDs: map<string, Node>, nodes: seq<Node>)
    requires Indexes(nodeIDs, nodes)
    ensures nodeIDs.Keys == TrimmedIDs(nodes)
  {}

  lemma NoNodes(httpToolOK: Fields -> bool)
    ensures NodesAccepted([], httpToolOK) && Indexes(map[], [])
  {}

  lemma NodesSnoc(nodes: seq<Node>, n: Node, httpToolOK: Fields -> bool)
    ensures NodesAccepted(nodes + [n], httpToolOK) <==>
            NodesAccepted(nodes, httpToolOK) && NodeAccepted(n, httpToolOK) && TrimSpace(n.id) !in TrimmedIDs(nodes)
  {
    var all := nodes + [n];
    assert all[|nodes|] == n;
    assert forall i :: 0 <= i < |nodes| ==> all[i] == nodes[i];
  }

  lemma IndexesSnoc(nodeIDs: map<string, Node>, nodes: seq<Node>, n: Node)
    requires Indexes(nodeIDs, nodes) && TrimSpace(n.id) !in nodeIDs
    ensures Indexes(nodeIDs[TrimSpace(n.id) := n], nodes + [n])
  {
    hide TrimSpace;
    var all := nodes + [n];
    assert all[|nodes|] == n;
    assert forall i :: 0 <= i < |nodes| ==> all[i] == nodes[i];
    assert TrimmedIDs(all) == TrimmedIDs(nodes) + {TrimSpace(n.id)};
  }

  method ValidateNodes(nodes: seq<Node>, httpToolOK: Fields -> bool)
    returns (errors: seq<ValidationError>, nodeIDs: map<string, Node>)
    ensures errors == [] <==> NodesAccepted(nodes, httpToolOK)
    ensures errors == [] <==> NodeRules(nodes, httpToolOK)
    ensures errors == [] ==> Indexes(nodeIDs, nodes)
  {
    NodesMean(nodes, httpToolOK);
    NoNodes(httpToolOK);
    hide NodeRules, NodesAccepted, Indexes, TrimSpace;
    errors, nodeIDs := [], map[];
    for i := 0 to |nodes|
      invariant errors == [] <==> NodesAccepted(nodes[..i], httpToolOK)
      invariant errors == [] ==> Indexes(nodeIDs, nodes[..i])
    {
      var node := nodes[i];
      var nodeID := TrimSpace(node.id);
      assert nodes[..i + 1] == nodes[..i] + [node];
      NodesSnoc(nodes[..i], node, httpToolOK);
      if errors == [] {
        IndexKeys(nodeIDs, nodes[..i]);
      }
      if nodeID == "" {
        errors := errors + [ValidationError(NodeID(i), "node id is required")];
        continue;
      }
      if nodeID in nodeIDs {
        errors := errors + [ValidationError(NodeID(i), "node id must be unique")];
        continue;
      }
      if !SupportedNodeType(TrimSpace(node.typ)) {
        errors := errors + [ValidationError(NodeType(i), "unsupported node type")];
      }
      if node.typ == "http_tool" && !httpToolOK(node.config) {
        errors := errors + [ValidationError(NodeConfig(i), "http tool config is not allowed")];
      }
      if errors == [] {
        IndexesSnoc(nodeIDs, nodes[..i], node);
      }
      nodeIDs := nodeIDs[nodeID := node];
    }
    assert nodes[..|nodes|] == nodes;
  }

  function Get(m: map<string, int>, key: string): int {
    if key in m then m[key] else 0
  }

  lemma CountsSnoc(edges: seq<Edge>, e: Edge)
    ensures forall id :: Count(edges + [e], IntoTrimmed(id)) ==
                         Count(edges, IntoTrimmed(id)) + if TrimSpace(e.to) == id then 1 else 0
    ensures forall id :: Count(edges + [e], OutOfTrimmed(id)) ==
                         Count(edges, OutOfTrimmed(id)) + if TrimSpace(e.from) == id then 1 else 0
  {
    assert (edges + [e])[..|edges|] == edges;
  }

  ghost predicate AllEdgesOK(edges: seq<Edge>, ids: set<string>) {
    forall e :: e in edges ==> EdgeAccepted(e, ids)
  }

  /** The counters hold the degrees of every trimmed identifier. */
  ghost predicate Counted(edges: seq<Edge>, incoming: map<string, int>, outgoing: map<string, int>) {
    && (forall id :: Get(incoming, id) == Count(edges, IntoTrimmed(id)))
    && (forall id :: Get(outgoing, id) == Count(edges, OutOfTrimmed(id)))
  }

  lemma EdgesSnoc(edges: seq<Edge>, e: Edge, ids: set<string>)
    ensures AllEdgesOK(edges + [e], ids) <==> AllEdgesOK(edges, ids) && EdgeAccepted(e, ids)
  {
    hide EdgeAccepted;
    assert (edges + [e])[|edges|] == e;
    assert forall x :: x in edges + [e] <==> x in edges || x == e;
  }

  lemma CountedSnoc(edges: seq<Edge>, e: Edge, incoming: map<string, int>, outgoing: map<string, int>)
    requires Counted(edges, incoming, outgoing)
    ensures var (from, to) := (TrimSpace(e.from), TrimSpace(e.to));
            Counted(edges + [e], incoming[to := Get(incoming, to) + 1], outgoing[from := Get(outgoing, from) + 1])
  {
    CountsSnoc(edges, e);
    hide Count, TrimSpace;
  }

  lemma NothingCounted()
    ensures Counted([], map[], map[])
  {}

  lemma EdgesMeaning(edges: seq<Edge>, ids: set<string>)
    ensures AllEdgesOK([], ids) && (AllEdgesOK(edges, ids) <==> forall e :: e in edges ==> EdgeAccepted(e, ids))
  {
    hide EdgeAccepted;
  }

  lemma CountedMeans(edges: seq<Edge>, incoming: map<string, int>, outgoing: map<string, int>)
    requires Counted(edges, incoming, outgoing)
    ensures forall id :: Get(incoming, id) == Count(edges, IntoTrimmed(id))
    ensures forall id :: Get(outgoing, id) == Count(edges, OutOfTrimmed(id))
  {
    hide Get, Count;
  }

  method ValidateEdges(edges: seq<Edge>, ids: set<string>)
    returns (errors: seq<ValidationError>, incoming: map<string, int>, outgoing: map<string, int>)
    ensures errors == [] <==> forall e :: e in edges ==> EdgeAccepted(e, ids)
    ensures errors == [] ==> forall id :: Get(incoming, id) == Count(edges, IntoTrimmed(id))
    ensures errors == [] ==> forall id :: Get(outgoing, id) == Count(edges, OutOfTrimmed(id))
  {
    NothingCounted();
    EdgesMeaning(edges, ids);
    hide AllEdgesOK, Counted, TrimSpace, Get, Count;
    errors, incoming, outgoing := [], map[], map[];
    for i := 0 to |edges|
      invariant errors == [] <==> AllEdgesOK(edges[..i], ids)
      invariant errors == [] ==> Counted(edges[..i], incoming, outgoing)
    {
      var edge := edges[i];
      var from := TrimSpace(edge.from);
      var to := TrimSpace(edge.to);
      assert edges[..i + 1] == edges[..i] + [edge];
      EdgesSnoc(edges[..i], edge, ids);
      if from == "" || to == "" {
        errors := errors + [ValidationError(EdgeAt(i), "edge endpoints are required")];
        continue;
      }
      if errors == [] {
        CountedSnoc(edges[..i], edge, incoming, outgoing);
      }
      if from == to {
        errors := errors + [ValidationError(EdgeAt(i), "self-referential edges are not allowed")];
      }
      if from !in ids {
        errors := errors + [ValidationError(EdgeFrom(i), "edge source must reference an existing node")];
      }
      if to !in ids {
        errors := errors + [ValidationError(EdgeTo(i), "edge destination must reference an existing node")];
      }
      outgoing := outgoing[from := Get(outgoing, from) + 1];
      incoming := incoming[to := Get(incoming, to) + 1];
    }
    assert edges[..|edges|] == edges;
    if errors == [] {
      CountedMeans(edges, incoming, outgoing);
    }
  }

  ghost predicate NodeDegreesOK(id: string, node: Node, incoming: map<string, int>, outgoing: map<string, int>) {
    Get(incoming, id) <= 1 && (node.typ == "condition" ==> Get(outgoing, id) >= 2)
  }

  ghost predicate AllDegreesOK(
    ids: set<string>, nodeIDs: map<string, Node>, incoming: map<string, int>, outgoing: map<string, int>)
    requires ids <= nodeIDs.Keys
  {
    forall id :: id in ids ==> NodeDegreesOK(id, nodeIDs[id], incoming, outgoing)
  }

  ghost predicate SomeUnentered(ids: set<string>, incoming: map<string, int>) {
    exists id :: id in ids && Get(incoming, id) == 0
  }

  lemma OneMoreID(
    ids: set<string>, id: string, nodeIDs: map<string, Node>, incoming: map<string, int>, outgoing: map<string, int>)
    requires ids <= nodeIDs.Keys && id in nodeIDs
    ensures AllDegreesOK(ids + {id}, nodeIDs, incoming, outgoing) <==>
              && AllDegreesOK(ids, nodeIDs, incoming, outgoing)
              && Get(incoming, id) <= 1 && (nodeIDs[id].typ == "condition" ==> Get(outgoing, id) >= 2)
    ensures SomeUnentered(ids + {id}, incoming) <==> SomeUnentered(ids, incoming) || Get(incoming, id) == 0
  {
    hide Get;
    assert id in ids + {id};
    if SomeUnentered(ids, incoming) {
      var other :| other in ids && Get(incoming, other) == 0;
      assert other in ids + {id};
    }
  }

  lemma AllIDs(nodeIDs: map<string, Node>, incoming: map<string, int>, outgoing: map<string, int>)
    ensures AllDegreesOK({}, nodeIDs, incoming, outgoing) && !SomeUnentered({}, incoming)
    ensures AllDegreesOK(nodeIDs.Keys, nodeIDs, incoming, outgoing) <==>
              forall id :: id in nodeIDs ==> NodeDegreesOK(id, nodeIDs[id], incoming, outgoing)
    ensures SomeUnentered(nodeIDs.Keys, incoming) <==> exists id :: id in nodeIDs && Get(incoming, id) == 0
  {
    hide Get, NodeDegreesOK;
  }

  lemma OneLess<T>(all: set<T>, remaining: set<T>, x: T)
    requires x in remaining && remaining <= all
    ensures all - (remaining - {x}) == (all - remaining) + {x} && remaining - {x} <= all && x in all
  {}

  lemma NoneLess<T>(all: set<T>)
    ensures all - all == {} && all - {} == all
  {}

  method ValidateDegrees(nodeIDs: map<string, Node>, incoming: map<string, int>, outgoing: map<string, int>)
    returns (errors: seq<ValidationError>)
    ensures errors == [] <==>
            && (forall id :: id in nodeIDs ==> NodeDegreesOK(id, nodeIDs[id], incoming, outgoing))
            && (nodeIDs == map[] || exists id :: id in nodeIDs && Get(incoming, id) == 0)
  {
    AllIDs(nodeIDs, incoming, outgoing);
    NoneLess(nodeIDs.Keys);
    hide *;
    errors := [];
    var rootCount := 0;
    var remaining := nodeIDs.Keys;
    while remaining != {}
      invariant remaining <= nodeIDs.Keys
      invariant errors == [] <==> AllDegreesOK(nodeIDs.Keys - remaining, nodeIDs, incoming, outgoing)
      invariant rootCount >= 0
      invariant rootCount > 0 <==> SomeUnentered(nodeIDs.Keys - remaining, incoming)
      decreases remaining
    {
      var id :| id in remaining;
      OneLess(nodeIDs.Keys, remaining, id);
      OneMoreID(nodeIDs.Keys - remaining, id, nodeIDs, incoming, outgoing);
      var node := nodeIDs[id];
      remaining := remaining - {id};
      if Get(incoming, id) == 0 {
        rootCount := rootCount + 1;
      }
      if node.typ == "condition" && Get(outgoing, id) < 2 {
        errors := errors + [ValidationError(EdgesField, "condition nodes must have at least two outgoing edges")];
      }
      if Get(incoming, id) > 1 {
        errors := errors + [ValidationError(EdgesField, "workflow merges are not supported yet")];
      }
    }
    if |nodeIDs| > 0 && rootCount == 0 {
      errors := errors + [ValidationError(NodesField, "workflow must contain at least one root node")];
    }
  }

  lemma DegreesByNode(d: Definition, nodeIDs: map<string, Node>, incoming: map<string, int>, outgoing: map<string, int>)
    requires Indexes(nodeIDs, d.nodes)
    requires forall id :: Get(incoming, id) == Count(d.edges, IntoTrimmed(id))
    requires forall id :: Get(outgoing, id) == Count(d.edges, OutOfTrimmed(id))
    ensures (forall id :: id in nodeIDs ==> NodeDegreesOK(id, nodeIDs[id], incoming, outgoing)) <==>
            (forall n :: n in d.nodes ==> DegreesAccepted(n, d.edges))
    ensures (exists id :: id in nodeIDs && Get(incoming, id) == 0) <==> HasRoot(d.nodes, d.edges)
    ensures nodeIDs == map[] <==> d.nodes == []
  {
    if d.nodes != [] {
      assert d.nodes[0] in d.nodes;
    }
    assert nodeIDs != map[] ==> exists id :: id in nodeIDs;
    forall id | id in nodeIDs
      ensures NodeDegreesOK(id, nodeIDs[id], incoming, outgoing) <==> DegreesAccepted(nodeIDs[id], d.edges)
    {}
    if HasRoot(d.nodes, d.edges) {
      var n :| n in d.nodes && Count(d.edges, IntoTrimmed(TrimSpace(n.id))) == 0;
      assert TrimSpace(n.id) in nodeIDs && Get(incoming, TrimSpace(n.id)) == 0;
    }
  }

  method ValidateBranches(d: Definition) returns (errors: seq<ValidationError>)
    ensures errors == [] <==> forall n :: n in d.nodes ==> BranchesAccepted(n, d.edges)
  {
    errors := [];
    for i := 0 to |d.nodes|
      invariant errors == [] <==> forall n :: n in d.nodes[..i] ==> BranchesAccepted(n, d.edges)
    {
      var node := d.nodes[i];
      assert d.nodes[..i + 1] == d.nodes[..i] + [node];
      if node.typ != "condition" {
        continue;
      }
      var nodeErrors := ValidateConditionNode(node, d.edges);
      errors := errors + nodeErrors;
    }
    assert d.nodes[..|d.nodes|] == d.nodes;
  }

  ghost predicate AllLabelled(n: Node, edges: seq<Edge>) {
    forall e :: e in edges && e.from == n.id ==> LabelIs(e, "true") || LabelIs(e, "false")
  }

  ghost predicate SomeLabelled(n: Node, edges: seq<Edge>, branch: string) {
    exists e :: e in edges && e.from == n.id && LabelIs(e, branch)
  }

  lemma LabelledSnoc(n: Node, edges: seq<Edge>, edge: Edge, branch: string)
    ensures AllLabelled(n, edges + [edge]) <==>
              AllLabelled(n, edges) && (edge.from == n.id ==> LabelIs(edge, "true") || LabelIs(edge, "false"))
    ensures SomeLabelled(n, edges + [edge], branch) <==>
              SomeLabelled(n, edges, branch) || (edge.from == n.id && LabelIs(edge, branch))
  {
    hide LabelIs;
    assert (edges + [edge])[|edges|] == edge;
    assert forall e :: e in edges + [edge] <==> e in edges || e == edge;
  }

  lemma BranchesMeaning(n: Node, edges: seq<Edge>)
    requires n.typ == "condition"
    ensures AllLabelled(n, []) && !SomeLabelled(n, [], "true") && !SomeLabelled(n, [], "false")
    ensures BranchesAccepted(n, edges) <==>
              AllLabelled(n, edges) && SomeLabelled(n, edges, "true") && SomeLabelled(n, edges, "false")
  {
    hide LabelIs;
  }

  method ValidateConditionNode(node: Node, edges: seq<Edge>) returns (errors: seq<ValidationError>)
    requires node.typ == "condition"
    ensures errors == [] <==> BranchesAccepted(node, edges)
  {
    BranchesMeaning(node, edges);
    hide AllLabelled, SomeLabelled, BranchesAccepted, ToLower, TrimSpace;
    errors := [];
    var trueBranch, falseBranch := false, false;
    for i := 0 to |edges|
      invariant errors == [] <==> AllLabelled(node, edges[..i])
      invariant trueBranch <==> SomeLabelled(node, edges[..i], "true")
      invariant falseBranch <==> SomeLabelled(node, edges[..i], "false")
    {
      var edge := edges[i];
      assert edges[..i + 1] == edges[..i] + [edge];
      LabelledSnoc(node, edges[..i], edge, "true");
      LabelledSnoc(node, edges[..i], edge, "false");
      if edge.from != node.id {
        continue;
      }
      var branch := ToLower(TrimSpace(edge.condition));
      if branch == "true" {
        trueBranch := true;
      } else if branch == "false" {
        falseBranch := true;
      } else {
        errors := errors + [ValidationError(EdgesField, "condition edges must be labeled true or false")];
      }
    }
    assert edges[..|edges|] == edges;
    if !trueBranch || !falseBranch {
      errors := errors + [ValidationError(EdgesField, "condition nodes must define both true and false branches")];
    }
  }
}
