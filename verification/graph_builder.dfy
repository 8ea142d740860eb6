/**
 * The graph builder (src/graph_builder.py): tool nodes named
 * `{source_file}.{tool_name}`, parameter nodes deduplicated globally by name
 * through the builder's own index (`_parameter_nodes`), and
 * `requires_input` / `produces_output` edges from a tool to its parameters.
 *
 * Every operation is a pure function from the builder state to the next
 * one; `parse` stands for `json.loads` as in JsonExtractor.
 */
module GraphBuilder {
  import opened Wrappers
  import opened JsonExtractor
  import opened ParameterGraph

  /** One API operation as read from the CSV (`APIRecord`). */
  datatype ApiRecord = ApiRecord(
    toolName: string,
    apiEndpoint: string,
    inputPayload: string,
    outputResponse: string,
    statusCode: Option<int>,
    success: Option<bool>,
    curlCommand: Option<string>,
    timestamp: Option<string>,
    sourceFile: string)

  /** The builder's state: its graph and the parameter-name index. */
  datatype Builder = Builder(graph: Graph, index: set<string>)

  /** Every indexed parameter name is a node of the graph. */
  predicate Indexed(b: Builder) {
    b.index <= b.graph.nodes.Keys
  }

  ghost predicate Valid(b: Builder) {
    WellFormed(b.graph) && Indexed(b)
  }

  /** `GraphBuilder()` */
  const NewBuilder := Builder(EmptyGraph, {})

  /** Which side of a tool a parameter is on. */
  datatype Direction = Input | Output

  function KindOf(dir: Direction): NodeType {
    match dir
    case Input => InputParam
    case Output => OutputParam
  }

  function EdgeTypeOf(dir: Direction): EdgeType {
    match dir
    case Input => RequiresInput
    case Output => ProducesOutput
  }

  /** What `add_tool_node` does to the builder: the node `id` exists, is
      typed a tool and carries exactly the tool attributes given, whatever
      it carried before (last write wins), and keeps an earlier
      `param_name`; nothing else changes. */
  ghost predicate ToolAdded(b: Builder, r: Builder, id: string, attrs: ToolAttrs) {
    && Indexed(r)
    && r.index == b.index
    && r.graph.nodes.Keys == b.graph.nodes.Keys + {id}
    && r.graph.nodes[id].nodeType == Some(Tool)
    && r.graph.nodes[id].tool == Some(attrs)
    && r.graph.nodes[id].paramName == NodeOr(b.graph, id).paramName
    && (forall x :: x in b.graph.nodes && x != id ==> r.graph.nodes[x] == b.graph.nodes[x])
    && r.graph.edges == b.graph.edges
    && b.graph.order <= r.graph.order
  }

  /** `add_tool_node`: the id is `{csv_file}.{tool_name}`. */
  function AddToolNode(b: Builder, toolName: string, csvFile: string, metadata: ToolMeta): (r: (Builder, string))
    requires Valid(b)
    ensures Valid(r.0)
    ensures r.1 == csvFile + "." + toolName
    ensures ToolAdded(b, r.0, r.1, ToolAttrs(toolName, csvFile, metadata))
  {
    var nodeId := csvFile + "." + toolName;
    var g := AddNode(b.graph, nodeId, NodeAttrs(Some(Tool), Some(ToolAttrs(toolName, csvFile, metadata)), None));
    (Builder(g, b.index), nodeId)
  }

  /** `add_parameter_node`: a name already in the index leaves the builder
      untouched whatever the kind (first writer wins); otherwise the node
      is added, or its `node_type` and `param_name` updated, and indexed. */
  function AddParameterNode(b: Builder, paramName: string, paramType: NodeType): (r: (Builder, string))
    requires Valid(b)
    ensures Valid(r.0)
    ensures r.1 == paramName
    ensures paramName in r.0.index && paramName in r.0.graph.nodes
    ensures paramName in b.index ==> r.0 == b
    ensures paramName !in b.index ==>
      && r.0.index == b.index + {paramName}
      && r.0.graph.nodes[paramName].nodeType == Some(paramType)
      && r.0.graph.nodes[paramName].paramName == Some(paramName)
      && r.0.graph.nodes[paramName].tool == NodeOr(b.graph, paramName).tool
    ensures r.0.graph.nodes.Keys == b.graph.nodes.Keys + {paramName}
    ensures forall x :: x in b.graph.nodes && x != paramName ==> r.0.graph.nodes[x] == b.graph.nodes[x]
    ensures r.0.graph.edges == b.graph.edges
    ensures b.graph.order <= r.0.graph.order
  {
    if paramName !in b.index then
      var g := AddNode(b.graph, paramName, NodeAttrs(Some(paramType), None, Some(paramName)));
      (Builder(g, b.index + {paramName}), paramName)
    else
      (b, paramName)
  }

  /** The edge a parameter call leaves on the pair: its own `edge_type` and
      `parameter_name`, any other attribute of an earlier edge kept. */
  function ParamEdge(prev: Option<EdgeAttrs>, dir: Direction, parameterName: string): EdgeAttrs {
    MergeEdge(prev, EdgeAttrs(EdgeTypeOf(dir), Some(parameterName), None))
  }

  /** The common effect of `add_input_edge` and `add_output_edge`: exactly
      one edge on the pair, carrying this call's `edge_type`. */
  ghost predicate EdgeAdded(b: Builder, r: Builder, toolId: string, paramName: string, dir: Direction, parameterName: string)
  {
    && Valid(r)
    && r.index == b.index
    && r.graph.edges == b.graph.edges[(toolId, paramName) := ParamEdge(EdgeOr(b.graph, (toolId, paramName)), dir, parameterName)]
    && r.graph.edges[(toolId, paramName)].edgeType == EdgeTypeOf(dir)
    && r.graph.edges[(toolId, paramName)].parameterName == Some(parameterName)
    && r.graph.nodes.Keys == b.graph.nodes.Keys + {toolId, paramName}
    && (forall x :: x in b.graph.nodes ==> r.graph.nodes[x] == b.graph.nodes[x])
    && b.graph.order <= r.graph.order
    && (toolId in b.graph.nodes && paramName in b.graph.nodes ==> r.graph.nodes == b.graph.nodes && r.graph.order == b.graph.order)
  }

  /** `add_input_edge`; the metadata dict is the `parameter_name` the build
      passes. */
  function AddInputEdge(b: Builder, toolId: string, paramName: string, parameterName: string): (r: Builder)
    requires Valid(b)
    ensures EdgeAdded(b, r, toolId, paramName, Input, parameterName)
    ensures r.graph.edges[(toolId, paramName)].edgeType == RequiresInput
  {
    Builder(AddEdge(b.graph, toolId, paramName, EdgeAttrs(RequiresInput, Some(parameterName), None)), b.index)
  }

  /** `add_output_edge` */
  function AddOutputEdge(b: Builder, toolId: string, paramName: string, parameterName: string): (r: Builder)
    requires Valid(b)
    ensures EdgeAdded(b, r, toolId, paramName, Output, parameterName)
    ensures r.graph.edges[(toolId, paramName)].edgeType == ProducesOutput
  {
    Builder(AddEdge(b.graph, toolId, paramName, EdgeAttrs(ProducesOutput, Some(parameterName), None)), b.index)
  }

  /** What one iteration of the key loop does to the builder: the name is
      indexed and a node (first writer wins on its kind), and the one edge
      from the tool to it carries the direction's `edge_type`. */
  ghost predicate ParamAdded(b: Builder, r: Builder, toolId: string, key: string, dir: Direction)
    requires toolId in b.graph.nodes
  {
    && Indexed(r)
    && r.index == b.index + {key}
    && r.graph.nodes.Keys == b.graph.nodes.Keys + {key}
    && (forall x :: x in b.graph.nodes && x != key ==> r.graph.nodes[x] == b.graph.nodes[x])
    && (key in b.index ==> r.graph.nodes == b.graph.nodes)
    && (key !in b.index ==>
          && r.graph.nodes[key].nodeType == Some(KindOf(dir))
          && r.graph.nodes[key].tool == NodeOr(b.graph, key).tool)
    && r.graph.edges == b.graph.edges[(toolId, key) := ParamEdge(EdgeOr(b.graph, (toolId, key)), dir, key)]
    && b.graph.order <= r.graph.order
  }

  /** What the whole key loop does: every key indexed and a node, typed by
      this direction unless indexed before, linked from the tool by an edge
      of this direction's type; every other node keeps its attributes, every
      node keeps its tool attributes, and every other edge is unchanged. */
  ghost predicate ParamsAdded(b: Builder, r: Builder, toolId: string, keys: seq<string>, dir: Direction)
    requires Indexed(b)
  {
    && Indexed(r)
    && (forall x :: x in r.index <==> x in b.index || x in keys)
    && (forall x :: x in r.graph.nodes <==> x in b.graph.nodes || x in keys)
    && (forall x :: x in b.graph.nodes && x !in keys ==> r.graph.nodes[x] == b.graph.nodes[x])
    && (forall x :: x in b.index ==> r.graph.nodes[x] == b.graph.nodes[x])
    && (forall x :: x in keys && x !in b.index ==> r.graph.nodes[x].nodeType == Some(KindOf(dir)))
    && (forall x :: x in b.graph.nodes ==> r.graph.nodes[x].tool == b.graph.nodes[x].tool)
    && (forall e :: e in r.graph.edges <==> e in b.graph.edges || (e.0 == toolId && e.1 in keys))
    && (forall k :: k in keys ==> r.graph.edges[(toolId, k)].edgeType == EdgeTypeOf(dir))
    && (forall k :: k in keys ==> r.graph.edges[(toolId, k)].parameterName == Some(k))
    && (forall e :: e in b.graph.edges && !(e.0 == toolId && e.1 in keys) ==> r.graph.edges[e] == b.graph.edges[e])
    && b.graph.order <= r.graph.order
  }

  /** One iteration of the input or output key loop of `build_from_records`:
      the parameter node, then the edge from the tool. */
  function AddParam(b: Builder, toolId: string, key: string, dir: Direction): (r: Builder)
    requires Valid(b) && toolId in b.graph.nodes
    ensures Valid(r)
    ensures ParamAdded(b, r, toolId, key, dir)
  {
    var (b1, paramNode) := AddParameterNode(b, key, KindOf(dir));
    var r := match dir
      case Input => AddInputEdge(b1, toolId, paramNode, key)
      case Output => AddOutputEdge(b1, toolId, paramNode, key);
    ParamAddedFrom(b, b1, r, toolId, key, dir);
    r
  }

  /** A parameter node followed by its edge make one key loop iteration. */
  lemma ParamAddedFrom(b: Builder, b1: Builder, r: Builder, toolId: string, key: string, dir: Direction)
    requires toolId in b.graph.nodes && Indexed(r)
    requires key in b.index ==> b1 == b
    requires b1.graph.nodes.Keys == b.graph.nodes.Keys + {key}
    requires key !in b.index ==>
      && b1.index == b.index + {key}
      && b1.graph.nodes[key].nodeType == Some(KindOf(dir))
      && b1.graph.nodes[key].tool == NodeOr(b.graph, key).tool
    requires forall x :: x in b.graph.nodes && x != key ==> b1.graph.nodes[x] == b.graph.nodes[x]
    requires b1.graph.edges == b.graph.edges && b.graph.order <= b1.graph.order
    requires r.index == b1.index && r.graph.nodes == b1.graph.nodes && r.graph.order == b1.graph.order
    requires r.graph.edges == b1.graph.edges[(toolId, key) := ParamEdge(EdgeOr(b1.graph, (toolId, key)), dir, key)]
    ensures ParamAdded(b, r, toolId, key, dir)
  {
  }

  /** The input or output key loop of `build_from_records` for one tool. */
  function AddParams(b: Builder, toolId: string, keys: seq<string>, dir: Direction): (r: Builder)
    requires Valid(b) && toolId in b.graph.nodes
    ensures Valid(r)
    ensures ParamsAdded(b, r, toolId, keys, dir)
  {
    if |keys| == 0 then b
    else
      var b1 := AddParams(b, toolId, keys[..|keys| - 1], dir);
      var r := AddParam(b1, toolId, keys[|keys| - 1], dir);
      ParamsAddedStep(b, b1, r, toolId, keys, dir);
      r
  }

  /** The key loop's effect extends by one iteration. */
  lemma ParamsAddedStep(b: Builder, b1: Builder, r: Builder, toolId: string, keys: seq<string>, dir: Direction)
    requires Indexed(b) && toolId in b.graph.nodes && |keys| > 0
    requires ParamsAdded(b, b1, toolId, keys[..|keys| - 1], dir)
    requires toolId in b1.graph.nodes && ParamAdded(b1, r, toolId, keys[|keys| - 1], dir)
    ensures ParamsAdded(b, r, toolId, keys, dir)
  {
    var front, key := keys[..|keys| - 1], keys[|keys| - 1];
    assert keys == front + [key];
    StepNodes(b, b1, r, toolId, front, key, dir);
    StepEdges(b, b1, r, toolId, front, key, dir);
    PrefixTransitive(b.graph.order, b1.graph.order, r.graph.order);
  }

  lemma StepNodes(b: Builder, b1: Builder, r: Builder, toolId: string, front: seq<string>, key: string, dir: Direction)
    requires Indexed(b) && toolId in b.graph.nodes
    requires ParamsAdded(b, b1, toolId, front, dir)
    requires toolId in b1.graph.nodes && ParamAdded(b1, r, toolId, key, dir)
    ensures forall x :: x in r.index <==> x in b.index || x in front + [key]
    ensures forall x :: x in r.graph.nodes <==> x in b.graph.nodes || x in front + [key]
    ensures forall x :: x in b.graph.nodes && x !in front + [key] ==> r.graph.nodes[x] == b.graph.nodes[x]
    ensures forall x :: x in b.index ==> r.graph.nodes[x] == b.graph.nodes[x]
    ensures forall x :: x in front + [key] && x !in b.index ==> r.graph.nodes[x].nodeType == Some(KindOf(dir))
    ensures forall x :: x in b.graph.nodes ==> r.graph.nodes[x].tool == b.graph.nodes[x].tool
  {
    StepNodeSet(b, b1, r, toolId, front, key, dir);
    StepNodeAttrs(b, b1, r, toolId, front, key, dir);
  }

  lemma StepNodeSet(b: Builder, b1: Builder, r: Builder, toolId: string, front: seq<string>, key: string, dir: Direction)
    requires Indexed(b) && toolId in b.graph.nodes
    requires ParamsAdded(b, b1, toolId, front, dir)
    requires toolId in b1.graph.nodes && ParamAdded(b1, r, toolId, key, dir)
    ensures forall x :: x in r.index <==> x in b.index || x in front + [key]
    ensures forall x :: x in r.graph.nodes <==> x in b.graph.nodes || x in front + [key]
  {
  }

  lemma StepNodeAttrs(b: Builder, b1: Builder, r: Builder, toolId: string, front: seq<string>, key: string, dir: Direction)
    requires Indexed(b) && toolId in b.graph.nodes
    requires ParamsAdded(b, b1, toolId, front, dir)
    requires toolId in b1.graph.nodes && ParamAdded(b1, r, toolId, key, dir)
    ensures forall x :: x in b.graph.nodes && x !in front + [key] ==> r.graph.nodes[x] == b.graph.nodes[x]
    ensures forall x :: x in b.index ==> r.graph.nodes[x] == b.graph.nodes[x]
    ensures forall x :: x in front + [key] && x !in b.index ==> r.graph.nodes[x].nodeType == Some(KindOf(dir))
    ensures forall x :: x in b.graph.nodes ==> r.graph.nodes[x].tool == b.graph.nodes[x].tool
  {
  }

  lemma StepEdges(b: Builder, b1: Builder, r: Builder, toolId: string, front: seq<string>, key: string, dir: Direction)
    requires Indexed(b) && toolId in b.graph.nodes
    requires ParamsAdded(b, b1, toolId, front, dir)
    requires toolId in b1.graph.nodes && ParamAdded(b1, r, toolId, key, dir)
    ensures forall e :: e in r.graph.edges <==> e in b.graph.edges || (e.0 == toolId && e.1 in front + [key])
    ensures forall k :: k in front + [key] ==> r.graph.edges[(toolId, k)].edgeType == EdgeTypeOf(dir)
    ensures forall k :: k in front + [key] ==> r.graph.edges[(toolId, k)].parameterName == Some(k)
    ensures forall e :: e in b.graph.edges && !(e.0 == toolId && e.1 in front + [key]) ==> r.graph.edges[e] == b.graph.edges[e]
  {
    StepEdgeSet(b, b1, r, toolId, front, key, dir);
    StepEdgeAttrs(b, b1, r, toolId, front, key, dir);
  }

  lemma StepEdgeSet(b: Builder, b1: Builder, r: Builder, toolId: string, front: seq<string>, key: string, dir: Direction)
    requires Indexed(b) && toolId in b.graph.nodes
    requires ParamsAdded(b, b1, toolId, front, dir)
    requires toolId in b1.graph.nodes && ParamAdded(b1, r, toolId, key, dir)
    ensures forall e :: e in r.graph.edges <==> e in b.graph.edges || (e.0 == toolId && e.1 in front + [key])
    ensures forall e :: e in b.graph.edges && !(e.0 == toolId && e.1 in front + [key]) ==> r.graph.edges[e] == b.graph.edges[e]
  {
  }

  lemma StepEdgeAttrs(b: Builder, b1: Builder, r: Builder, toolId: string, front: seq<string>, key: string, dir: Direction)
    requires Indexed(b) && toolId in b.graph.nodes
    requires ParamsAdded(b, b1, toolId, front, dir)
    requires toolId in b1.graph.nodes && ParamAdded(b1, r, toolId, key, dir)
    ensures forall k :: k in front + [key] ==> r.graph.edges[(toolId, k)].edgeType == EdgeTypeOf(dir)
    ensures forall k :: k in front + [key] ==> r.graph.edges[(toolId, k)].parameterName == Some(k)
  {
  }

  /** The tool id of a record. */
  function RecordId(rec: ApiRecord): string {
    rec.sourceFile + "." + rec.toolName
  }

  /** The parameter paths of a record's input and output payloads; the
      build uses `extract_keys` with its default prefix, which is
      `PayloadKeys(parse)`, and every result below holds for any extractor. */
  function InputKeys(extract: string -> seq<string>, rec: ApiRecord): seq<string> {
    extract(rec.inputPayload)
  }

  function OutputKeys(extract: string -> seq<string>, rec: ApiRecord): seq<string> {
    extract(rec.outputResponse)
  }

  /** The `tool_metadata` dict of `build_from_records`, with the tool name
      and CSV file `add_tool_node` adds to it. */
  function RecordAttrs(extract: string -> seq<string>, rec: ApiRecord): ToolAttrs {
    ToolAttrs(rec.toolName, rec.sourceFile,
      ToolMeta(rec.apiEndpoint, rec.statusCode, rec.success, rec.curlCommand, rec.timestamp,
               rec.sourceFile, InputKeys(extract, rec), OutputKeys(extract, rec)))
  }

  /** The nodes and index entries one record adds: its id and its keys,
      with every key indexed; no other node changes, nor does an indexed
      name other than the id. */
  ghost predicate RecordNodes(extract: string -> seq<string>, b: Builder, r: Builder, rec: ApiRecord)
    requires Indexed(b)
  {
    var id, ins, outs := RecordId(rec), InputKeys(extract, rec), OutputKeys(extract, rec);
    && (forall x :: x in r.index <==> x in b.index || x in ins || x in outs)
    && (forall x :: x in r.graph.nodes <==> x in b.graph.nodes || x == id || x in ins || x in outs)
    && (forall x :: x in b.graph.nodes && x != id && x !in ins && x !in outs ==> r.graph.nodes[x] == b.graph.nodes[x])
    && (forall x :: x in b.index && x != id ==> r.graph.nodes[x] == b.graph.nodes[x])
  }

  /** The record's tool node carries the record's tool attributes whatever
      it carried before; it stays a tool unless one of the record's own keys
      is the same string and was not indexed before, in which case the
      parameter node overwrites its type. No other node's tool attributes
      change. */
  ghost predicate RecordTool(extract: string -> seq<string>, b: Builder, r: Builder, rec: ApiRecord) {
    var id, ins, outs := RecordId(rec), InputKeys(extract, rec), OutputKeys(extract, rec);
    && NodeOr(r.graph, id).tool == Some(RecordAttrs(extract, rec))
    && ((id !in ins && id !in outs) || id in b.index ==> NodeOr(r.graph, id).nodeType == Some(Tool))
    && (forall x :: x in b.graph.nodes && x != id ==> NodeOr(r.graph, x).tool == b.graph.nodes[x].tool)
  }

  /** A key not indexed before is typed by the first loop naming it: the
      input loop runs first. */
  ghost predicate RecordKinds(extract: string -> seq<string>, b: Builder, r: Builder, rec: ApiRecord) {
    var ins, outs := InputKeys(extract, rec), OutputKeys(extract, rec);
    && (forall x :: x in ins && x !in b.index ==> NodeOr(r.graph, x).nodeType == Some(InputParam))
    && (forall x :: x in outs && x !in ins && x !in b.index ==> NodeOr(r.graph, x).nodeType == Some(OutputParam))
  }

  /** The record's tool gains one edge per key, naming the key; the output
      loop runs last, so an output key's edge is `produces_output` and any
      other key's is `requires_input`. Edges from other nodes are kept. */
  ghost predicate RecordLinks(extract: string -> seq<string>, b: Builder, r: Builder, rec: ApiRecord) {
    var id, ins, outs := RecordId(rec), InputKeys(extract, rec), OutputKeys(extract, rec);
    && (forall e :: e in r.graph.edges <==> e in b.graph.edges || (e.0 == id && (e.1 in ins || e.1 in outs)))
    && (forall k :: k in outs ==> EdgeTypeAt(r.graph, (id, k)) == Some(ProducesOutput))
    && (forall k :: k in ins && k !in outs ==> EdgeTypeAt(r.graph, (id, k)) == Some(RequiresInput))
    && (forall k :: (k in ins || k in outs) && (id, k) in r.graph.edges ==> r.graph.edges[(id, k)].parameterName == Some(k))
    && (forall e :: e in b.graph.edges && !(e.0 == id && (e.1 in ins || e.1 in outs)) ==>
          e in r.graph.edges && r.graph.edges[e] == b.graph.edges[e])
  }

  /** What one record does to the builder. */
  ghost predicate RecordAdded(extract: string -> seq<string>, b: Builder, r: Builder, rec: ApiRecord)
    requires Indexed(b)
  {
    && Indexed(r)
    && RecordNodes(extract, b, r, rec)
    && RecordTool(extract, b, r, rec)
    && RecordKinds(extract, b, r, rec)
    && RecordLinks(extract, b, r, rec)
    && b.graph.order <= r.graph.order
  }

  /** One iteration of `build_from_records`: the tool node with its
      metadata, then the input keys, then the output keys. */
  function AddRecord(extract: string -> seq<string>, b: Builder, rec: ApiRecord): (r: Builder)
    requires Valid(b)
    ensures Valid(r)
    ensures RecordAdded(extract, b, r, rec)
  {
    var (b1, toolId) := AddToolNode(b, rec.toolName, rec.sourceFile, RecordAttrs(extract, rec).meta);
    var b2 := AddParams(b1, toolId, InputKeys(extract, rec), Input);
    var r := AddParams(b2, toolId, OutputKeys(extract, rec), Output);
    RecordNodesStep(extract, b, b1, b2, r, rec);
    RecordToolStep(extract, b, b1, b2, r, rec);
    RecordKindsStep(extract, b, b1, b2, r, rec);
    RecordLinksStep(extract, b, b1, b2, r, rec);
    PrefixTransitive(b.graph.order, b1.graph.order, b2.graph.order);
    PrefixTransitive(b.graph.order, b2.graph.order, r.graph.order);
    r
  }

  lemma RecordNodesStep(extract: string -> seq<string>, b: Builder, b1: Builder, b2: Builder, r: Builder, rec: ApiRecord)
    requires Indexed(b)
    requires ToolAdded(b, b1, RecordId(rec), RecordAttrs(extract, rec))
    requires ParamsAdded(b1, b2, RecordId(rec), InputKeys(extract, rec), Input)
    requires ParamsAdded(b2, r, RecordId(rec), OutputKeys(extract, rec), Output)
    ensures RecordNodes(extract, b, r, rec)
  {
  }

  lemma RecordToolStep(extract: string -> seq<string>, b: Builder, b1: Builder, b2: Builder, r: Builder, rec: ApiRecord)
    requires Indexed(b)
    requires ToolAdded(b, b1, RecordId(rec), RecordAttrs(extract, rec))
    requires ParamsAdded(b1, b2, RecordId(rec), InputKeys(extract, rec), Input)
    requires ParamsAdded(b2, r, RecordId(rec), OutputKeys(extract, rec), Output)
    ensures RecordTool(extract, b, r, rec)
  {
  }

  lemma RecordKindsStep(extract: string -> seq<string>, b: Builder, b1: Builder, b2: Builder, r: Builder, rec: ApiRecord)
    requires Indexed(b)
    requires ToolAdded(b, b1, RecordId(rec), RecordAttrs(extract, rec))
    requires ParamsAdded(b1, b2, RecordId(rec), InputKeys(extract, rec), Input)
    requires ParamsAdded(b2, r, RecordId(rec), OutputKeys(extract, rec), Output)
    ensures RecordKinds(extract, b, r, rec)
  {
  }

  lemma RecordLinksStep(extract: string -> seq<string>, b: Builder, b1: Builder, b2: Builder, r: Builder, rec: ApiRecord)
    requires Indexed(b)
    requires ToolAdded(b, b1, RecordId(rec), RecordAttrs(extract, rec))
    requires ParamsAdded(b1, b2, RecordId(rec), InputKeys(extract, rec), Input)
    requires ParamsAdded(b2, r, RecordId(rec), OutputKeys(extract, rec), Output)
    ensures RecordLinks(extract, b, r, rec)
  {
    RecordLinkSet(extract, b, b1, b2, r, rec);
    RecordLinkAttrs(extract, b, b1, b2, r, rec);
  }

  lemma RecordLinkSet(extract: string -> seq<string>, b: Builder, b1: Builder, b2: Builder, r: Builder, rec: ApiRecord)
    requires Indexed(b)
    requires ToolAdded(b, b1, RecordId(rec), RecordAttrs(extract, rec))
    requires ParamsAdded(b1, b2, RecordId(rec), InputKeys(extract, rec), Input)
    requires ParamsAdded(b2, r, RecordId(rec), OutputKeys(extract, rec), Output)
    ensures var id, ins, outs := RecordId(rec), InputKeys(extract, rec), OutputKeys(extract, rec);
      && (forall e :: e in r.graph.edges <==> e in b.graph.edges || (e.0 == id && (e.1 in ins || e.1 in outs)))
      && (forall e :: e in b.graph.edges && !(e.0 == id && (e.1 in ins || e.1 in outs)) ==>
            e in r.graph.edges && r.graph.edges[e] == b.graph.edges[e])
  {
  }

  lemma RecordLinkAttrs(extract: string -> seq<string>, b: Builder, b1: Builder, b2: Builder, r: Builder, rec: ApiRecord)
    requires Indexed(b)
    requires ToolAdded(b, b1, RecordId(rec), RecordAttrs(extract, rec))
    requires ParamsAdded(b1, b2, RecordId(rec), InputKeys(extract, rec), Input)
    requires ParamsAdded(b2, r, RecordId(rec), OutputKeys(extract, rec), Output)
    ensures var id, ins, outs := RecordId(rec), InputKeys(extract, rec), OutputKeys(extract, rec);
      && (forall k :: k in outs ==> EdgeTypeAt(r.graph, (id, k)) == Some(ProducesOutput))
      && (forall k :: k in ins && k !in outs ==> EdgeTypeAt(r.graph, (id, k)) == Some(RequiresInput))
      && (forall k :: (k in ins || k in outs) && (id, k) in r.graph.edges ==> r.graph.edges[(id, k)].parameterName == Some(k))
  {
    RecordLinkTypes(extract, b, b1, b2, r, rec);
    RecordLinkNames(extract, b, b1, b2, r, rec);
  }

  lemma RecordLinkTypes(extract: string -> seq<string>, b: Builder, b1: Builder, b2: Builder, r: Builder, rec: ApiRecord)
    requires Indexed(b)
    requires ToolAdded(b, b1, RecordId(rec), RecordAttrs(extract, rec))
    requires ParamsAdded(b1, b2, RecordId(rec), InputKeys(extract, rec), Input)
    requires ParamsAdded(b2, r, RecordId(rec), OutputKeys(extract, rec), Output)
    ensures var id, ins, outs := RecordId(rec), InputKeys(extract, rec), OutputKeys(extract, rec);
      && (forall k :: k in outs ==> EdgeTypeAt(r.graph, (id, k)) == Some(ProducesOutput))
      && (forall k :: k in ins && k !in outs ==> EdgeTypeAt(r.graph, (id, k)) == Some(RequiresInput))
  {
    var id, ins, outs := RecordId(rec), InputKeys(extract, rec), OutputKeys(extract, rec);
    LastLoopTypes(b2, r, id, outs, Output);
    EarlierLoopTypes(b1, b2, r, id, ins, outs);
  }

  /** The keys of a loop end with that loop's edge type. */
  lemma LastLoopTypes(b: Builder, r: Builder, id: string, keys: seq<string>, dir: Direction)
    requires Indexed(b) && ParamsAdded(b, r, id, keys, dir)
    ensures forall k :: k in keys ==> EdgeTypeAt(r.graph, (id, k)) == Some(EdgeTypeOf(dir))
  {
  }

  /** An input key that is not an output key keeps its input edge. */
  lemma EarlierLoopTypes(b1: Builder, b2: Builder, r: Builder, id: string, ins: seq<string>, outs: seq<string>)
    requires Indexed(b1) && ParamsAdded(b1, b2, id, ins, Input)
    requires Indexed(b2) && ParamsAdded(b2, r, id, outs, Output)
    ensures forall k :: k in ins && k !in outs ==> EdgeTypeAt(r.graph, (id, k)) == Some(RequiresInput)
  {
    forall k | k in ins && k !in outs
      ensures EdgeTypeAt(r.graph, (id, k)) == Some(RequiresInput)
    {
      assert (id, k) in b2.graph.edges && b2.graph.edges[(id, k)].edgeType == RequiresInput;
    }
  }

  lemma RecordLinkNames(extract: string -> seq<string>, b: Builder, b1: Builder, b2: Builder, r: Builder, rec: ApiRecord)
    requires Indexed(b)
    requires ToolAdded(b, b1, RecordId(rec), RecordAttrs(extract, rec))
    requires ParamsAdded(b1, b2, RecordId(rec), InputKeys(extract, rec), Input)
    requires ParamsAdded(b2, r, RecordId(rec), OutputKeys(extract, rec), Output)
    ensures var id, ins, outs := RecordId(rec), InputKeys(extract, rec), OutputKeys(extract, rec);
      forall k :: (k in ins || k in outs) && (id, k) in r.graph.edges ==> r.graph.edges[(id, k)].parameterName == Some(k)
  {
  }

  /** `x` is a key of some record. */
  predicate KeyOfSome(extract: string -> seq<string>, records: seq<ApiRecord>, x: string) {
    exists k :: 0 <= k < |records| && (x in InputKeys(extract, records[k]) || x in OutputKeys(extract, records[k]))
  }

  /** `x` is the tool id of some record. */
  predicate IdOfSome(records: seq<ApiRecord>, x: string) {
    exists k :: 0 <= k < |records| && RecordId(records[k]) == x
  }

  /** `e` joins a record's tool to one of that record's keys. */
  predicate LinkOfSome(extract: string -> seq<string>, records: seq<ApiRecord>, e: (string, string)) {
    exists k :: 0 <= k < |records| && e.0 == RecordId(records[k])
      && (e.1 in InputKeys(extract, records[k]) || e.1 in OutputKeys(extract, records[k]))
  }

  /** No later record has the same tool id as record `k`. */
  predicate LastOfId(records: seq<ApiRecord>, k: int) {
    0 <= k < |records| && forall j :: k < j < |records| ==> RecordId(records[j]) != RecordId(records[k])
  }

  /** Record `k` is the first record with `x` among its keys. */
  predicate FirstOccurrence(extract: string -> seq<string>, records: seq<ApiRecord>, x: string, k: int) {
    && 0 <= k < |records|
    && (x in InputKeys(extract, records[k]) || x in OutputKeys(extract, records[k]))
    && forall j :: 0 <= j < k ==> x !in InputKeys(extract, records[j]) && x !in OutputKeys(extract, records[j])
  }

  /** The kind of the first parameter node for a key: the input loop of
      the first record naming it runs before its output loop. */
  function FirstKind(extract: string -> seq<string>, records: seq<ApiRecord>, x: string): (r: NodeType)
    requires KeyOfSome(extract, records, x)
    ensures r == InputParam || r == OutputParam
    ensures exists k :: FirstOccurrence(extract, records, x, k) && (r == InputParam <==> x in InputKeys(extract, records[k]))
    decreases |records|
  {
    var n := |records| - 1;
    var front := records[..n];
    assert forall j :: 0 <= j < n ==> front[j] == records[j];
    if KeyOfSome(extract, front, x) then
      var r := FirstKind(extract, front, x);
      var k :| FirstOccurrence(extract, front, x, k) && (r == InputParam <==> x in InputKeys(extract, front[k]));
      assert FirstOccurrence(extract, records, x, k);
      r
    else
      assert FirstOccurrence(extract, records, x, n);
      if x in InputKeys(extract, records[n]) then InputParam else OutputParam
  }

  /** The nodes and index entries `build_from_records` adds: every
      record's id and keys, with every key indexed, and nothing else; a
      node that is neither keeps its attributes. */
  ghost predicate BuiltNodes(extract: string -> seq<string>, b: Builder, r: Builder, records: seq<ApiRecord>) {
    && (forall x :: x in r.index <==> x in b.index || KeyOfSome(extract, records, x))
    && (forall x :: x in r.graph.nodes <==> x in b.graph.nodes || IdOfSome(records, x) || KeyOfSome(extract, records, x))
    && (forall x :: x in b.graph.nodes && !IdOfSome(records, x) && !KeyOfSome(extract, records, x) ==>
          x in r.graph.nodes && r.graph.nodes[x] == b.graph.nodes[x])
  }

  /** The edges it adds: one from each record's tool to each of that
      record's keys, naming the key, and nothing else; an edge from a node
      that is no record's tool is kept. */
  ghost predicate BuiltEdges(extract: string -> seq<string>, b: Builder, r: Builder, records: seq<ApiRecord>) {
    && (forall e :: e in r.graph.edges <==> e in b.graph.edges || LinkOfSome(extract, records, e))
    && (forall e :: e in b.graph.edges && !LinkOfSome(extract, records, e) ==> e in r.graph.edges && r.graph.edges[e] == b.graph.edges[e])
    && (forall e :: LinkOfSome(extract, records, e) ==> e in r.graph.edges && r.graph.edges[e].parameterName == Some(e.1))
  }

  /** A tool node carries the attributes of the LAST record with its id,
      and a tool id that is no record's key is typed a tool. */
  ghost predicate BuiltTools(extract: string -> seq<string>, r: Builder, records: seq<ApiRecord>) {
    && (forall k :: LastOfId(records, k) ==>
          NodeOr(r.graph, RecordId(records[k])).tool == Some(RecordAttrs(extract, records[k])))
    && (forall x :: IdOfSome(records, x) && !KeyOfSome(extract, records, x) ==> NodeOr(r.graph, x).nodeType == Some(Tool))
  }

  /** A key that is no record's id and was not indexed before has the kind
      of its first occurrence (first writer wins). */
  ghost predicate BuiltKinds(extract: string -> seq<string>, b: Builder, r: Builder, records: seq<ApiRecord>) {
    forall x :: KeyOfSome(extract, records, x) && !IdOfSome(records, x) && x !in b.index ==>
      NodeOr(r.graph, x).nodeType == Some(FirstKind(extract, records, x))
  }

  /** Record `k` lists `y` among its keys, and no later record with the
      same tool id lists `y` again: its loops wrote the edge last. */
  predicate LastLink(extract: string -> seq<string>, records: seq<ApiRecord>, k: int, y: string) {
    && 0 <= k < |records|
    && (y in InputKeys(extract, records[k]) || y in OutputKeys(extract, records[k]))
    && forall j :: k < j < |records| && RecordId(records[j]) == RecordId(records[k]) ==>
         y !in InputKeys(extract, records[j]) && y !in OutputKeys(extract, records[j])
  }

  /** Each edge keeps the type of the last record that wrote it, even when
      later records of the same tool no longer list the key: an output key
      of that record gives `produces_output`, any other key `requires_input`. */
  ghost predicate BuiltEdgeTypes(extract: string -> seq<string>, r: Builder, records: seq<ApiRecord>) {
    && (forall k, y :: LastLink(extract, records, k, y) && y in OutputKeys(extract, records[k]) ==>
          EdgeTypeAt(r.graph, (RecordId(records[k]), y)) == Some(ProducesOutput))
    && (forall k, y :: LastLink(extract, records, k, y) && y !in OutputKeys(extract, records[k]) ==>
          EdgeTypeAt(r.graph, (RecordId(records[k]), y)) == Some(RequiresInput))
  }

  /** What `build_from_records` leaves behind, starting from builder `b`. */
  ghost predicate Built(extract: string -> seq<string>, b: Builder, r: Builder, records: seq<ApiRecord>) {
    && Indexed(r)
    && BuiltNodes(extract, b, r, records)
    && BuiltEdges(extract, b, r, records)
    && BuiltTools(extract, r, records)
    && BuiltKinds(extract, b, r, records)
    && BuiltEdgeTypes(extract, r, records)
    && b.graph.order <= r.graph.order
  }

  /** The record loop of `build_from_records`. */
  function Build(extract: string -> seq<string>, b: Builder, records: seq<ApiRecord>): (r: Builder)
    requires Valid(b)
    ensures Valid(r)
    ensures Built(extract, b, r, records)
    decreases |records|
  {
    if |records| == 0 then b
    else
      var b1 := Build(extract, b, records[..|records| - 1]);
      var r := AddRecord(extract, b1, records[|records| - 1]);
      BuildStep(extract, b, b1, r, records);
      r
  }

  /** `build_from_records` on a builder, extracting keys with
      `extract_keys`. */
  function BuildFromRecords(parse: Parser, b: Builder, records: seq<ApiRecord>): (r: Builder)
    requires Valid(b)
    ensures Valid(r)
    ensures Built(PayloadKeys(parse), b, r, records)
  {
    Build(PayloadKeys(parse), b, records)
  }

  /** How the record predicates split over the last record. */
  lemma SplitLast(extract: string -> seq<string>, records: seq<ApiRecord>)
    requires |records| > 0
    ensures var front, last := records[..|records| - 1], records[|records| - 1];
      && (forall x :: KeyOfSome(extract, records, x) <==>
            KeyOfSome(extract, front, x) || x in InputKeys(extract, last) || x in OutputKeys(extract, last))
      && (forall x :: IdOfSome(records, x) <==> IdOfSome(front, x) || x == RecordId(last))
      && (forall e :: LinkOfSome(extract, records, e) <==>
            (LinkOfSome(extract, front, e) || (e.0 == RecordId(last) && (e.1 in InputKeys(extract, last) || e.1 in OutputKeys(extract, last)))))
      && (forall k :: 0 <= k < |front| ==> (LastOfId(records, k) <==> LastOfId(front, k) && RecordId(front[k]) != RecordId(last)))
      && LastOfId(records, |front|)
  {
    var n := |records| - 1;
    var front := records[..n];
    assert forall k :: 0 <= k < n ==> front[k] == records[k];
  }

  /** The record loop's effect extends by one record. */
  lemma BuildStep(extract: string -> seq<string>, b: Builder, b1: Builder, r: Builder, records: seq<ApiRecord>)
    requires Indexed(b) && Indexed(b1) && |records| > 0
    requires Built(extract, b, b1, records[..|records| - 1])
    requires RecordAdded(extract, b1, r, records[|records| - 1])
    ensures Built(extract, b, r, records)
  {
    SplitLast(extract, records);
    BuiltNodesStep(extract, b, b1, r, records);
    BuiltEdgesStep(extract, b, b1, r, records);
    BuiltToolsStep(extract, b, b1, r, records);
    BuiltKindsStep(extract, b, b1, r, records);
    BuiltEdgeTypesStep(extract, b, b1, r, records);
    PrefixTransitive(b.graph.order, b1.graph.order, r.graph.order);
  }

  lemma BuiltNodesStep(extract: string -> seq<string>, b: Builder, b1: Builder, r: Builder, records: seq<ApiRecord>)
    requires Indexed(b1) && |records| > 0
    requires BuiltNodes(extract, b, b1, records[..|records| - 1])
    requires RecordNodes(extract, b1, r, records[|records| - 1])
    ensures BuiltNodes(extract, b, r, records)
  {
    SplitLast(extract, records);
  }

  lemma BuiltEdgesStep(extract: string -> seq<string>, b: Builder, b1: Builder, r: Builder, records: seq<ApiRecord>)
    requires |records| > 0
    requires BuiltEdges(extract, b, b1, records[..|records| - 1])
    requires RecordLinks(extract, b1, r, records[|records| - 1])
    ensures BuiltEdges(extract, b, r, records)
  {
    SplitLast(extract, records);
    var front, last := records[..|records| - 1], records[|records| - 1];
    var id, ins, outs := RecordId(last), InputKeys(extract, last), OutputKeys(extract, last);
    forall e | LinkOfSome(extract, records, e)
      ensures e in r.graph.edges && r.graph.edges[e].parameterName == Some(e.1)
    {
      if !(e.0 == id && (e.1 in ins || e.1 in outs)) {
        assert LinkOfSome(extract, front, e);
      }
    }
  }

  lemma BuiltToolsStep(extract: string -> seq<string>, b: Builder, b1: Builder, r: Builder, records: seq<ApiRecord>)
    requires Indexed(b1) && |records| > 0
    requires BuiltTools(extract, b1, records[..|records| - 1])
    requires RecordNodes(extract, b1, r, records[|records| - 1])
    requires RecordTool(extract, b1, r, records[|records| - 1])
    ensures BuiltTools(extract, r, records)
  {
    SplitLast(extract, records);
  }

  lemma BuiltKindsStep(extract: string -> seq<string>, b: Builder, b1: Builder, r: Builder, records: seq<ApiRecord>)
    requires Indexed(b1) && |records| > 0
    requires BuiltNodes(extract, b, b1, records[..|records| - 1])
    requires BuiltKinds(extract, b, b1, records[..|records| - 1])
    requires RecordNodes(extract, b1, r, records[|records| - 1])
    requires RecordKinds(extract, b1, r, records[|records| - 1])
    ensures BuiltKinds(extract, b, r, records)
  {
    SplitLast(extract, records);
  }

  lemma BuiltEdgeTypesStep(extract: string -> seq<string>, b: Builder, b1: Builder, r: Builder, records: seq<ApiRecord>)
    requires |records| > 0
    requires BuiltEdgeTypes(extract, b1, records[..|records| - 1])
    requires RecordLinks(extract, b1, r, records[|records| - 1])
    ensures BuiltEdgeTypes(extract, r, records)
  {
    SplitLastLink(extract, records);
  }

  /** How `LastLink` splits over the last record. */
  lemma SplitLastLink(extract: string -> seq<string>, records: seq<ApiRecord>)
    requires |records| > 0
    ensures var n, front, last := |records| - 1, records[..|records| - 1], records[|records| - 1];
      && (forall k, y :: 0 <= k < n ==>
            (LastLink(extract, records, k, y) <==>
               LastLink(extract, front, k, y)
               && !(RecordId(front[k]) == RecordId(last) && (y in InputKeys(extract, last) || y in OutputKeys(extract, last)))))
      && (forall y :: LastLink(extract, records, n, y) <==> y in InputKeys(extract, last) || y in OutputKeys(extract, last))
  {
    var n := |records| - 1;
    var front := records[..n];
    assert forall k :: 0 <= k < n ==> front[k] == records[k];
  }

  /* ------------------------------------------------------------------ */
  /* Properties of a build from a fresh builder                         */
  /* ------------------------------------------------------------------ */

  /** No record's tool id is spelled like any record's parameter path
      (tools and parameters share one node namespace). */
  predicate NoCollision(extract: string -> seq<string>, records: seq<ApiRecord>) {
    forall k :: 0 <= k < |records| ==> !KeyOfSome(extract, records, RecordId(records[k]))
  }

  /** From a fresh builder, without collisions, the tool nodes are exactly
      the distinct record ids and the parameter nodes exactly the distinct
      keys, each of the kind of its first occurrence. */
  lemma BuildNodeKinds(extract: string -> seq<string>, records: seq<ApiRecord>)
    requires NoCollision(extract, records)
    ensures var g := Build(extract, NewBuilder, records).graph;
      && (forall x :: x in ToolNodes(g) <==> IdOfSome(records, x))
      && (forall x :: x in ParameterNodes(g, None) <==> KeyOfSome(extract, records, x))
      && (forall x :: x in ParameterNodes(g, Some(InputParam)) <==>
            KeyOfSome(extract, records, x) && FirstKind(extract, records, x) == InputParam)
      && (forall x :: x in ParameterNodes(g, Some(OutputParam)) <==>
            KeyOfSome(extract, records, x) && FirstKind(extract, records, x) == OutputParam)
  {
    var r := Build(extract, NewBuilder, records);
    NodeTypesFromBuilt(extract, records, r);
    FiltersFromTypes(extract, records, r.graph);
  }

  /** The node types of a build from a fresh builder without collisions. */
  lemma NodeTypesFromBuilt(extract: string -> seq<string>, records: seq<ApiRecord>, r: Builder)
    requires NoCollision(extract, records)
    requires BuiltNodes(extract, NewBuilder, r, records)
    requires BuiltTools(extract, r, records)
    requires BuiltKinds(extract, NewBuilder, r, records)
    ensures forall x :: x in r.graph.nodes <==> IdOfSome(records, x) || KeyOfSome(extract, records, x)
    ensures forall x :: IdOfSome(records, x) ==> !KeyOfSome(extract, records, x) && r.graph.nodes[x].nodeType == Some(Tool)
    ensures forall x :: KeyOfSome(extract, records, x) ==> r.graph.nodes[x].nodeType == Some(FirstKind(extract, records, x))
  {
    forall x | IdOfSome(records, x)
      ensures !KeyOfSome(extract, records, x) && r.graph.nodes[x].nodeType == Some(Tool)
    {
      var k :| 0 <= k < |records| && RecordId(records[k]) == x;
    }
  }

  /** The filters of the builder on a graph whose nodes are the record ids,
      typed tools, and the keys, typed by their first occurrence. */
  lemma FiltersFromTypes(extract: string -> seq<string>, records: seq<ApiRecord>, g: Graph)
    requires WellFormed(g)
    requires forall x :: x in g.nodes <==> IdOfSome(records, x) || KeyOfSome(extract, records, x)
    requires forall x :: IdOfSome(records, x) ==> !KeyOfSome(extract, records, x) && g.nodes[x].nodeType == Some(Tool)
    requires forall x :: KeyOfSome(extract, records, x) ==> g.nodes[x].nodeType == Some(FirstKind(extract, records, x))
    ensures forall x :: x in ToolNodes(g) <==> IdOfSome(records, x)
    ensures forall x :: x in ParameterNodes(g, None) <==> KeyOfSome(extract, records, x)
    ensures forall x :: x in ParameterNodes(g, Some(InputParam)) <==>
      KeyOfSome(extract, records, x) && FirstKind(extract, records, x) == InputParam
    ensures forall x :: x in ParameterNodes(g, Some(OutputParam)) <==>
      KeyOfSome(extract, records, x) && FirstKind(extract, records, x) == OutputParam
  {
    ToolAndParamFilters(extract, records, g);
    KindFilters(extract, records, g);
  }

  lemma ToolAndParamFilters(extract: string -> seq<string>, records: seq<ApiRecord>, g: Graph)
    requires WellFormed(g)
    requires forall x :: x in g.nodes <==> IdOfSome(records, x) || KeyOfSome(extract, records, x)
    requires forall x :: IdOfSome(records, x) ==> !KeyOfSome(extract, records, x) && g.nodes[x].nodeType == Some(Tool)
    requires forall x :: KeyOfSome(extract, records, x) ==> g.nodes[x].nodeType == Some(FirstKind(extract, records, x))
    ensures forall x :: x in ToolNodes(g) <==> IdOfSome(records, x)
    ensures forall x :: x in ParameterNodes(g, None) <==> KeyOfSome(extract, records, x)
  {
  }

  lemma KindFilters(extract: string -> seq<string>, records: seq<ApiRecord>, g: Graph)
    requires WellFormed(g)
    requires forall x :: x in g.nodes <==> IdOfSome(records, x) || KeyOfSome(extract, records, x)
    requires forall x :: IdOfSome(records, x) ==> !KeyOfSome(extract, records, x) && g.nodes[x].nodeType == Some(Tool)
    requires forall x :: KeyOfSome(extract, records, x) ==> g.nodes[x].nodeType == Some(FirstKind(extract, records, x))
    ensures forall x :: x in ParameterNodes(g, Some(InputParam)) <==>
      KeyOfSome(extract, records, x) && FirstKind(extract, records, x) == InputParam
    ensures forall x :: x in ParameterNodes(g, Some(OutputParam)) <==>
      KeyOfSome(extract, records, x) && FirstKind(extract, records, x) == OutputParam
  {
  }

  /** The number of tool nodes is the number of distinct record ids. */
  lemma BuildToolCount(extract: string -> seq<string>, records: seq<ApiRecord>)
    requires NoCollision(extract, records)
    ensures |ToolNodes(Build(extract, NewBuilder, records).graph)| == |set k | 0 <= k < |records| :: RecordId(records[k])|
  {
    var tools := ToolNodes(Build(extract, NewBuilder, records).graph);
    BuildNodeKinds(extract, records);
    CountIds(tools, records);
  }

  lemma CountIds(tools: seq<string>, records: seq<ApiRecord>)
    requires NoDup(tools)
    requires forall x :: x in tools <==> IdOfSome(records, x)
    ensures |tools| == |set k | 0 <= k < |records| :: RecordId(records[k])|
  {
    NoDupCard(tools);
    assert (set x | x in tools) == set k | 0 <= k < |records| :: RecordId(records[k]);
  }

  /** Two records with different ids give two tool nodes. */
  lemma TwoRecordsTwoTools(extract: string -> seq<string>, records: seq<ApiRecord>)
    requires |records| == 2 && RecordId(records[0]) != RecordId(records[1])
    requires NoCollision(extract, records)
    ensures |ToolNodes(Build(extract, NewBuilder, records).graph)| == 2
  {
    BuildToolCount(extract, records);
    TwoIds(records);
  }

  lemma TwoIds(records: seq<ApiRecord>)
    requires |records| == 2 && RecordId(records[0]) != RecordId(records[1])
    ensures |set k | 0 <= k < |records| :: RecordId(records[k])| == 2
  {
    var ids := set k | 0 <= k < |records| :: RecordId(records[k]);
    assert RecordId(records[0]) in ids && RecordId(records[1]) in ids;
    assert ids == {RecordId(records[0]), RecordId(records[1])};
  }

  /** Two calls of one tool: an input key only the first call lists keeps
      its `requires_input` edge, and the tool carries the second call's
      attributes. */
  lemma RepeatedCallKeepsEdge(extract: string -> seq<string>, b: Builder, first: ApiRecord, second: ApiRecord, x: string)
    requires Valid(b) && RecordId(first) == RecordId(second)
    requires x in InputKeys(extract, first) && x !in OutputKeys(extract, first)
    requires x !in InputKeys(extract, second) && x !in OutputKeys(extract, second)
    ensures var g := Build(extract, b, [first, second]).graph;
      && EdgeTypeAt(g, (RecordId(first), x)) == Some(RequiresInput)
      && NodeOr(g, RecordId(first)).tool == Some(RecordAttrs(extract, second))
  {
    assert LastLink(extract, [first, second], 0, x);
    assert LastOfId([first, second], 1);
  }

  /** A record whose own input key is spelled like its tool id turns that
      node into an input parameter: the tool drops out of the tool nodes. */
  lemma CollisionRetypesTool(extract: string -> seq<string>, b: Builder, rec: ApiRecord)
    requires Valid(b)
    requires RecordId(rec) in InputKeys(extract, rec) && RecordId(rec) !in b.index
    ensures var g := AddRecord(extract, b, rec).graph;
      && RecordId(rec) in g.nodes
      && g.nodes[RecordId(rec)].nodeType == Some(InputParam)
      && g.nodes[RecordId(rec)].tool == Some(RecordAttrs(extract, rec))
      && RecordId(rec) !in ToolNodes(g)
  {
    var r := AddRecord(extract, b, rec);
    assert RecordKinds(extract, b, r, rec) && RecordTool(extract, b, r, rec);
  }

  /** A key in both payloads of one record ends with one edge from the
      tool, typed `produces_output`. */
  lemma SharedKeyIsOutput(extract: string -> seq<string>, b: Builder, rec: ApiRecord, key: string)
    requires Valid(b)
    requires key in InputKeys(extract, rec) && key in OutputKeys(extract, rec)
    ensures var g := AddRecord(extract, b, rec).graph;
      && (RecordId(rec), key) in g.edges
      && g.edges[(RecordId(rec), key)].edgeType == ProducesOutput
      && g.edges[(RecordId(rec), key)].parameterName == Some(key)
  {
    var r := AddRecord(extract, b, rec);
    assert RecordLinks(extract, b, r, rec);
  }

  /** After `build_from_records`, a tool node's `input_keys` and
      `output_keys` are `extract_keys` of its last record's payloads. */
  lemma ToolMetadataKeys(parse: Parser, b: Builder, records: seq<ApiRecord>, k: int)
    requires Valid(b) && LastOfId(records, k)
    ensures var g := BuildFromRecords(parse, b, records).graph;
      && RecordId(records[k]) in g.nodes
      && g.nodes[RecordId(records[k])].tool.Some?
      && g.nodes[RecordId(records[k])].tool.value.meta.inputKeys == ExtractKeys(parse, records[k].inputPayload, "")
      && g.nodes[RecordId(records[k])].tool.value.meta.outputKeys == ExtractKeys(parse, records[k].outputResponse, "")
  {
    var r := BuildFromRecords(parse, b, records);
    assert BuiltTools(PayloadKeys(parse), r, records);
  }
}
