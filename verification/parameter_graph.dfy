/**
 * The attributed directed graph shared by the builder and the flow detector,
 * modelled on how `networkx.DiGraph` behaves:
 *  - nodes are keyed by a string id in one namespace shared by tools and
 *    parameters, and remember their insertion order;
 *  - there is at most one edge per ordered pair of ids;
 *  - adding a node or an edge that already exists UPDATES its attribute
 *    dict (`dict.update`): the attributes given win, the others are kept;
 *  - adding an edge silently adds a missing endpoint with no attributes.
 *
 * The untyped attribute dicts become fixed records whose fields are
 * Options (None for an attribute never set), so that the update is exact.
 */
module ParameterGraph {
  import opened Wrappers

  /** The `node_type` attribute: "tool", "input_param", "output_param". */
  datatype NodeType = Tool | InputParam | OutputParam

  /** The metadata `build_from_records` stores on a tool node. */
  datatype ToolMeta = ToolMeta(
    apiEndpoint: string,
    statusCode: Option<int>,
    success: Option<bool>,
    curlCommand: Option<string>,
    timestamp: Option<string>,
    sourceFile: string,
    inputKeys: seq<string>,
    outputKeys: seq<string>)

  /** The attributes `add_tool_node` sets besides `node_type`. */
  datatype ToolAttrs = ToolAttrs(toolName: string, csvFile: string, meta: ToolMeta)

  /** A node's attribute dict. */
  datatype NodeAttrs = NodeAttrs(nodeType: Option<NodeType>, tool: Option<ToolAttrs>, paramName: Option<string>)

  /** The attributes of a node that `add_edge` created implicitly. */
  const NoAttrs := NodeAttrs(None, None, None)

  /** The `edge_type` attribute. */
  datatype EdgeType = RequiresInput | ProducesOutput | PotentialFlow

  /** The `match_type` of a flow. `Semantic` is kept only as the tag the
      semantic matcher gives its matches. That matcher is not part of this
      model: its edges carry `edge_type` `semantic_flow` and a `reasoning`
      attribute, which `EdgeType` and `EdgeAttrs` do not represent, and no
      operation here produces the tag. */
  datatype MatchType = Exact | Fuzzy | Semantic

  /** The attributes `add_flow_edges` sets besides `edge_type`. */
  datatype FlowAttrs = FlowAttrs(matchingParam: string, confidence: real, matchType: MatchType)

  /** An edge's attribute dict; every edge of the core carries `edge_type`. */
  datatype EdgeAttrs = EdgeAttrs(edgeType: EdgeType, parameterName: Option<string>, flow: Option<FlowAttrs>)

  /** Node ids in insertion order, node attributes, and one attribute
      record per ordered pair (source, target). */
  datatype Graph = Graph(order: seq<string>, nodes: map<string, NodeAttrs>, edges: map<(string, string), EdgeAttrs>)

  predicate NoDup<T(==)>(s: seq<T>) {
    forall i, j :: 0 <= i < j < |s| ==> s[i] != s[j]
  }

  /** The order lists every node exactly once and every edge joins nodes. */
  ghost predicate WellFormed(g: Graph) {
    && NoDup(g.order)
    && (forall x :: x in g.order <==> x in g.nodes)
    && (forall e :: e in g.edges ==> e.0 in g.nodes && e.1 in g.nodes)
  }

  /** `nx.DiGraph()` */
  const EmptyGraph := Graph([], map[], map[])

  /** One attribute under `dict.update`: the given value wins. */
  function Pick<T>(given: Option<T>, kept: Option<T>): Option<T> {
    if given.Some? then given else kept
  }

  function MergeNode(prev: NodeAttrs, given: NodeAttrs): NodeAttrs {
    NodeAttrs(Pick(given.nodeType, prev.nodeType), Pick(given.tool, prev.tool), Pick(given.paramName, prev.paramName))
  }

  function MergeEdge(prev: Option<EdgeAttrs>, given: EdgeAttrs): EdgeAttrs {
    match prev
    case None => given
    case Some(e) => EdgeAttrs(given.edgeType, Pick(given.parameterName, e.parameterName), Pick(given.flow, e.flow))
  }

  function NodeOr(g: Graph, id: string): NodeAttrs {
    if id in g.nodes then g.nodes[id] else NoAttrs
  }

  function EdgeOr(g: Graph, e: (string, string)): Option<EdgeAttrs> {
    if e in g.edges then Some(g.edges[e]) else None
  }

  /** The `edge_type` on a pair, None when there is no edge. */
  function EdgeTypeAt(g: Graph, e: (string, string)): Option<EdgeType> {
    if e in g.edges then Some(g.edges[e].edgeType) else None
  }

  /** `G.add_node(id, **attrs)`: a new id goes to the end of the order, an
      existing one keeps its place and has its attributes updated. */
  function AddNode(g: Graph, id: string, given: NodeAttrs): (g': Graph)
    requires WellFormed(g)
    ensures WellFormed(g')
    ensures g'.nodes == g.nodes[id := MergeNode(NodeOr(g, id), given)]
    ensures g'.edges == g.edges
    ensures g.order <= g'.order
    ensures id in g.nodes ==> g'.order == g.order
  {
    if id in g.nodes then Graph(g.order, g.nodes[id := MergeNode(g.nodes[id], given)], g.edges)
    else Graph(g.order + [id], g.nodes[id := MergeNode(NoAttrs, given)], g.edges)
  }

  /** The implicit endpoint creation of `add_edge`. */
  function EnsureNode(g: Graph, id: string): (g': Graph)
    requires WellFormed(g)
    ensures WellFormed(g')
    ensures g'.nodes == if id in g.nodes then g.nodes else g.nodes[id := NoAttrs]
    ensures g'.edges == g.edges
    ensures g.order <= g'.order
    ensures id in g.nodes ==> g'.order == g.order
  {
    if id in g.nodes then g else Graph(g.order + [id], g.nodes[id := NoAttrs], g.edges)
  }

  /** `G.add_edge(u, v, **attrs)`: missing endpoints are added with no
      attributes, and the pair's one attribute record is updated. */
  function AddEdge(g: Graph, u: string, v: string, given: EdgeAttrs): (g': Graph)
    requires WellFormed(g)
    ensures WellFormed(g')
    ensures g'.nodes.Keys == g.nodes.Keys + {u, v}
    ensures forall x :: x in g.nodes ==> g'.nodes[x] == g.nodes[x]
    ensures forall x :: x in g'.nodes && x !in g.nodes ==> g'.nodes[x] == NoAttrs
    ensures g'.edges == g.edges[(u, v) := MergeEdge(EdgeOr(g, (u, v)), given)]
    ensures g.order <= g'.order
    ensures u in g.nodes && v in g.nodes ==> g'.order == g.order && g'.nodes == g.nodes
  {
    var g0 := EnsureNode(g, u);
    var g1 := EnsureNode(g0, v);
    assert u in g1.nodes && v in g1.nodes && g1.edges == g.edges;
    Graph(g1.order, g1.nodes, g1.edges[(u, v) := MergeEdge(EdgeOr(g, (u, v)), given)])
  }

  /** The node's `node_type` is one of `types`. */
  predicate HasType(g: Graph, x: string, types: set<NodeType>)
    requires x in g.nodes
  {
    g.nodes[x].nodeType.Some? && g.nodes[x].nodeType.value in types
  }

  /** `a` is `b` with some elements left out. */
  predicate Subsequence<T(==)>(a: seq<T>, b: seq<T>)
    decreases |b|
  {
    if |a| == 0 then true
    else if |b| == 0 then false
    else if a[0] == b[0] then Subsequence(a[1..], b[1..])
    else Subsequence(a, b[1..])
  }

  /** The ids of `order` whose node type is in `types`, in order. */
  function Select(order: seq<string>, nodes: map<string, NodeAttrs>, types: set<NodeType>): (r: seq<string>)
    requires forall x :: x in order ==> x in nodes
    requires NoDup(order)
    ensures NoDup(r)
    ensures Subsequence(r, order)
    ensures forall x :: x in r <==> x in order && nodes[x].nodeType.Some? && nodes[x].nodeType.value in types
  {
    if |order| == 0 then []
    else
      var rest := Select(order[1..], nodes, types);
      var x := order[0];
      if nodes[x].nodeType.Some? && nodes[x].nodeType.value in types then
        assert x !in order[1..];
        [x] + rest
      else rest
  }

  /** The node ids whose `node_type` is one of `types`, in insertion order
      (the list comprehension over `graph.nodes(data=True)`). */
  function NodesOfType(g: Graph, types: set<NodeType>): (r: seq<string>)
    requires WellFormed(g)
    ensures NoDup(r)
    ensures Subsequence(r, g.order)
    ensures forall x :: x in r <==> x in g.nodes && HasType(g, x, types)
  {
    Select(g.order, g.nodes, types)
  }

  /** `get_tool_nodes` (and the detector's `_get_tool_nodes`). */
  function ToolNodes(g: Graph): (r: seq<string>)
    requires WellFormed(g)
    ensures NoDup(r)
    ensures Subsequence(r, g.order)
    ensures forall x :: x in r <==> x in g.nodes && g.nodes[x].nodeType == Some(Tool)
  {
    NodesOfType(g, {Tool})
  }

  /** `get_parameter_nodes(param_type)`: None stands for a falsy
      `param_type` and selects both parameter kinds. */
  function ParameterNodes(g: Graph, paramType: Option<NodeType>): (r: seq<string>)
    requires WellFormed(g)
    ensures NoDup(r)
    ensures Subsequence(r, g.order)
    ensures paramType.Some? ==> forall x :: x in r <==> x in g.nodes && g.nodes[x].nodeType == paramType
    ensures paramType.None? ==> forall x :: x in r <==>
      x in g.nodes && g.nodes[x].nodeType in {Some(InputParam), Some(OutputParam)}
  {
    NodesOfType(g, if paramType.Some? then {paramType.value} else {InputParam, OutputParam})
  }

  lemma {:induction false} NoDupCard<T>(s: seq<T>)
    requires NoDup(s)
    ensures |set x | x in s| == |s|
  {
    if |s| > 0 {
      NoDupCard(s[1..]);
      assert (set x | x in s) == {s[0]} + set x | x in s[1..];
      assert s[0] !in s[1..];
    }
  }
}
