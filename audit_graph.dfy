/** The backend's audit workflow (backend/workflows/audit_graph.py): a graph
    of three nodes, browser -> vision_auditor -> data_structurer, whose only
    decision, `should_continue`, skips data_structurer when the vision step
    produced nothing or an error. What the nodes compute is not modelled:
    the `raw_analysis` the router reads is an input. */
module AuditGraph {
  import opened Wrappers

  /** The graph's nodes, with LangGraph's END as a node of its own. */
  datatype Node = Browser | VisionAuditor | DataStructurer | End

  /** An outgoing edge: a fixed successor, or a router whose answer is looked
      up in a path map. */
  datatype Edge =
    | Direct(to: Node)
    | Conditional(router: Option<string> -> Node, pathMap: map<Node, Node>)

  /** A graph as `StateGraph` accumulates it. */
  datatype Graph = Graph(nodes: set<Node>, entry: Option<Node>, edges: map<Node, Edge>)

  const ErrorPrefix: string := "Error"

  /** Python's `s.startswith(prefix)`: exact and case-sensitive. */
  predicate StartsWith(s: string, prefix: string) {
    |prefix| <= |s| && s[..|prefix|] == prefix
  }

  /** `state.get("raw_analysis", "")`: a missing key reads as the empty string. */
  function RawAnalysis(raw: Option<string>): string
  {
    match raw
    case None => ""
    case Some(v) => v
  }

  /** `should_continue`: END when the vision output is missing, empty or
      starts with "Error", data_structurer otherwise. */
  function ShouldContinue(raw: Option<string>): (next: Node)
    ensures next == End || next == DataStructurer
    ensures next == DataStructurer <==> raw.Some? && raw.value != "" && !StartsWith(raw.value, ErrorPrefix)
  {
    var s := RawAnalysis(raw);
    if s == "" || StartsWith(s, ErrorPrefix) then End else DataStructurer
  }

  /** `workflow.add_node`: registers a node; no run can go anywhere new. */
  function AddNode(g: Graph, n: Node): (h: Graph)
    ensures n in h.nodes && h.entry == g.entry
    ensures forall m, raw :: Step(h, m, raw) == Step(g, m, raw)
  {
    g.(nodes := g.nodes + {n})
  }

  /** `workflow.set_entry_point`: runs start at `n`; no transition changes. */
  function SetEntryPoint(g: Graph, n: Node): (h: Graph)
    ensures h.entry == Some(n) && h.nodes == g.nodes
    ensures forall m, raw :: Step(h, m, raw) == Step(g, m, raw)
  {
    g.(entry := Some(n))
  }

  /** `workflow.add_edge`: after `from`, a run always goes to `to`; every
      other node keeps its transitions. */
  function AddEdge(g: Graph, from: Node, to: Node): (h: Graph)
    ensures h.nodes == g.nodes && h.entry == g.entry
    ensures forall m, raw :: Step(h, m, raw) == if m == from then Some(to) else Step(g, m, raw)
  {
    g.(edges := g.edges[from := Direct(to)])
  }

  /** `workflow.add_conditional_edges`: after `from`, a run goes to the node
      the path map gives for the router's answer, and stops when the answer
      is not in the map; every other node keeps its transitions. */
  function AddConditionalEdges(g: Graph, from: Node, router: Option<string> -> Node, pathMap: map<Node, Node>): (h: Graph)
    ensures h.nodes == g.nodes && h.entry == g.entry
    ensures forall m, raw ::
              Step(h, m, raw) == if m != from then Step(g, m, raw)
                                 else if router(raw) in pathMap then Some(pathMap[router(raw)])
                                 else None
  {
    g.(edges := g.edges[from := Conditional(router, pathMap)])
  }

  /** `create_audit_graph`: the same calls, in the same order. */
  function CreateAuditGraph(): (g: Graph)
    ensures g.nodes == {Browser, VisionAuditor, DataStructurer}
    ensures g.entry == Some(Browser)
    ensures g.edges.Keys == {Browser, VisionAuditor, DataStructurer}
  {
    var g := Graph({}, None, map[]);
    var g := AddNode(g, Browser);
    var g := AddNode(g, VisionAuditor);
    var g := AddNode(g, DataStructurer);
    var g := SetEntryPoint(g, Browser);
    var g := AddEdge(g, Browser, VisionAuditor);
    var g := AddConditionalEdges(g, VisionAuditor, ShouldContinue,
                                 map[DataStructurer := DataStructurer, End := End]);
    AddEdge(g, DataStructurer, End)
  }

  /** The node a run of `g` goes to after `n`, or None when `n` has no way out. */
  function Step(g: Graph, n: Node, raw: Option<string>): Option<Node>
  {
    if n !in g.edges then None
    else match g.edges[n]
      case Direct(to) => Some(to)
      case Conditional(router, pathMap) =>
        var route := router(raw);
        if route in pathMap then Some(pathMap[route]) else None
  }

  /** The audit graph's transitions: browser always goes to vision_auditor,
      vision_auditor goes where `should_continue` says, data_structurer
      always goes to END, and END has no successor. */
  lemma AuditGraphSteps(raw: Option<string>)
    ensures Step(CreateAuditGraph(), Browser, raw) == Some(VisionAuditor)
    ensures Step(CreateAuditGraph(), VisionAuditor, raw) == Some(ShouldContinue(raw))
    ensures Step(CreateAuditGraph(), DataStructurer, raw) == Some(End)
    ensures Step(CreateAuditGraph(), End, raw) == None
  {
  }

  /** How many steps at most a run needs from `n` to reach END. */
  function Rank(n: Node): nat {
    match n
    case Browser => 3
    case VisionAuditor => 2
    case DataStructurer => 1
    case End => 0
  }

  /** Every transition of `g` leads to a node of lower rank, so a run of `g` ends. */
  predicate RanksFall(g: Graph, raw: Option<string>) {
    forall m :: Step(g, m, raw).Some? ==> Rank(Step(g, m, raw).value) < Rank(m)
  }

  /** The nodes a run of `g` visits from `n` on, up to the first node with no
      way out. */
  function Trace(g: Graph, n: Node, raw: Option<string>): (path: seq<Node>)
    requires RanksFall(g, raw)
    decreases Rank(n)
    ensures 1 <= |path| <= Rank(n) + 1
    ensures path[0] == n && Step(g, path[|path| - 1], raw) == None
    ensures forall i :: 0 <= i < |path| - 1 ==> Step(g, path[i], raw) == Some(path[i + 1])
    ensures forall i, j :: 0 <= i < j < |path| ==> Rank(path[i]) > Rank(path[j])
  {
    match Step(g, n, raw)
    case None => [n]
    case Some(next) =>
      var rest := Trace(g, next, raw);
      assert forall i :: 1 <= i < |rest| + 1 ==> ([n] + rest)[i] == rest[i - 1];
      [n] + rest
  }

  /** The audit graph's transitions lower the rank. */
  lemma AuditGraphRanksFall(raw: Option<string>)
    ensures RanksFall(CreateAuditGraph(), raw)
  {
    AuditGraphSteps(raw);
  }

  /** A whole run of the audit graph, from its entry point. */
  function Run(raw: Option<string>): (path: seq<Node>)
  {
    AuditGraphRanksFall(raw);
    Trace(CreateAuditGraph(), CreateAuditGraph().entry.value, raw)
  }

  /** The two possible runs: data_structurer runs if and only if the vision
      output is non-empty and does not start with "Error". */
  lemma RunIs(raw: Option<string>)
    ensures ShouldContinue(raw) == DataStructurer ==> Run(raw) == [Browser, VisionAuditor, DataStructurer, End]
    ensures ShouldContinue(raw) == End ==> Run(raw) == [Browser, VisionAuditor, End]
  {
    AuditGraphSteps(raw);
    AuditGraphRanksFall(raw);
    var g := CreateAuditGraph();
    assert Trace(g, End, raw) == [End];
    assert Trace(g, DataStructurer, raw) == [DataStructurer, End];
    assert Trace(g, VisionAuditor, raw) == [VisionAuditor] + Trace(g, ShouldContinue(raw), raw);
  }

  /** Every run starts at browser, visits browser and vision_auditor once
      each, in that order, visits data_structurer at most once and only when
      the vision output is usable, and ends at END within three steps. */
  lemma RunShape(raw: Option<string>)
    ensures Run(raw)[0] == Browser && Run(raw)[1] == VisionAuditor
    ensures Run(raw)[|Run(raw)| - 1] == End && |Run(raw)| <= 4
    ensures forall i, j :: 0 <= i < j < |Run(raw)| ==> Run(raw)[i] != Run(raw)[j]
    ensures DataStructurer in Run(raw) <==> raw.Some? && raw.value != "" && !StartsWith(raw.value, ErrorPrefix)
  {
    RunIs(raw);
  }
}
