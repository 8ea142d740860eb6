# monkey-graphs core, in Dafny

monkey-graphs reads recorded API calls (one record per call: tool name,
source CSV file, JSON input payload, JSON output response, status) and turns
them into a directed graph. Every tool becomes a node `"{csv_file}.{tool_name}"`.
Every parameter path found in a payload becomes a node of its own. A tool
has an edge to each parameter it requires (`requires_input`) or produces
(`produces_output`). The flow detector then looks for pairs of tools where
one produces a name the other requires. It writes each such pair back into
the graph as a `potential_flow` edge.

This project models the three source files at the core of that pipeline,
and proves what they promise.

- `JsonExtractor` (`json_extractor.dfy`) models the key extractor of
  `src/json_extractor.py`. It covers the blank and sentinel check, the
  pre-order traversal, the `[0]` array rule, `flatten_json`, `infer_type`
  and `get_unique_keys`. A JSON value is a datatype whose objects keep their
  members in order. `json.loads` is a parameter, `Parser`, which answers
  None for text on which `json.loads` raises `JSONDecodeError`.
- `ParameterGraph` (`parameter_graph.dfy`) models the `networkx.DiGraph`
  the builder and the detector share:
  - node ids in insertion order;
  - one attribute record per node and per ordered pair;
  - `add_node`/`add_edge` merging the attributes they are given into what
    was there (`dict.update`);
  - `add_edge` creating missing endpoints with no attributes.
- `GraphBuilder` (`graph_builder.dfy`) models `src/graph_builder.py`. This
  covers tool and parameter nodes, the `_parameter_nodes` index (first
  writer wins on a parameter's kind), the two edge kinds, the record loop of
  `build_from_records`, and the two node filters.
- `FlowDetector` (`flow_detector.dfy`) models `src/flow_detector.py`. This
  covers:
  - the name normalisation of `_calculate_similarity`;
  - the parameter sets of a tool;
  - `find_matching_params` (exact and fuzzy);
  - `detect_flows`, both as a set of flows and as the nested loops that
    emit them in node order;
  - `add_flow_edges`.

  `difflib.SequenceMatcher.ratio` is a field of the detector: any function
  of two strings with values in [0, 1].
- `Pipeline` (`pipeline.dfy`) joins the two halves. On a graph built from
  records without collisions (see `NoCollision` below), writing back the
  flows the detector found changes nothing a second detection would see.

Tool ids and parameter paths share one node namespace, exactly as in the
source. A parameter path spelled like a tool id (CSV file `user`, tool
`name`, payload key `user.name`) lands on the tool's node. When the path is
indexed only after the tool node was added, it retypes the tool as a
parameter; `GraphBuilder.CollisionRetypesTool` proves this. When an earlier
record indexed the path, adding the tool node retypes the parameter node as
a tool instead (src/graph_builder.py:37-43). The lemmas about a whole
build therefore assume `NoCollision`.

## Model

| member | source | states |
|---|---|---|
| JsonExtractor.Strip | src/json_extractor.py:21 | `str.strip()` keeps the slice of the text between leading and trailing white space, and the kept slice neither starts nor ends with white space |
| JsonExtractor.ExtractKeys | src/json_extractor.py:10-28 | blank text, `null`/`None` after stripping and unparseable text give no keys; otherwise the result is empty exactly when the parsed value has no keys (so `{}` and scalars give none either) |
| JsonExtractor.KeysEmptyIff | src/json_extractor.py:30-60 | the traversal emits nothing exactly when the value is not an object with members, and not an array whose first element is such an object |
| JsonExtractor.KeysUnderPrefix | src/json_extractor.py:43-58 | with a non-empty prefix, every path of an object starts with `prefix.` and every path of an array starts with `prefix[0].` |
| JsonExtractor.ArrayKeysUnderIndex | src/json_extractor.py:53-58 | every path an array contributes lies under `parent[0].` (or `[0].` at the top level) |
| JsonExtractor.FlatObjectKeys | src/json_extractor.py:43-47 | an object with n scalar members yields exactly n paths, the i-th being member i's full key |
| JsonExtractor.PreOrder | src/json_extractor.py:43-51 | an object's paths are its members' blocks laid end to end in declaration order, each block being the member's own path followed by its descendants' paths |
| JsonExtractor.OwnPathPrecedesDescendants | src/json_extractor.py:44-51 | member i's own path sits right after the earlier members' blocks, and its descendants' paths follow it directly |
| JsonExtractor.FlattenLeaves | src/json_extractor.py:62-86 | `flatten_json` maps only leaf values, and every key it keeps is a path the key extractor emits for the same object |
| JsonExtractor.FlattenIsLastLeaf | src/json_extractor.py:62-86 | the flattened keys are exactly the paths some member leads to, through nested objects and the first item of object arrays; each maps to the leaf reached by following it from the last member leading there, and that leaf is the only value it can map to |
| JsonExtractor.FlattenLeafObject | src/json_extractor.py:75-86 | on an object of leaves, the flattened keys are exactly the members' full keys, each mapped to the value of the last member with that key |
| JsonExtractor.InferType | src/json_extractor.py:88-113 | each JSON variant gets exactly one tag, and a boolean is tagged `boolean`, never `integer` |
| JsonExtractor.UniqueKeys | src/json_extractor.py:115-131 | a name is in the result exactly when `extract_keys` yields it for some input string |
| JsonExtractor.ExampleFlat | src/json_extractor.py:43-47 | `{"a":1,"b":2}` yields `["a","b"]` |
| JsonExtractor.ExampleNested | src/json_extractor.py:43-51 | `{"user":{"name":…}}` yields `["user","user.name"]` |
| JsonExtractor.ExampleArray | src/json_extractor.py:53-58 | `{"items":[{"id":1}]}` yields `["items","items[0].id"]` |
| JsonExtractor.ExampleFlatten | src/json_extractor.py:75-86 | `{"user":{"name":"test","age":30}}` flattens to `user.name` and `user.age` with their values |
| ParameterGraph.AddNode | src/graph_builder.py:37-43 | `add_node` merges the given attributes into the node's, appends a new id to the node order, and keeps the graph well formed |
| ParameterGraph.AddEdge | src/graph_builder.py:79-84 | `add_edge` leaves one record on the pair with the given attributes merged in, adds missing endpoints with no attributes, and changes no other node or edge |
| ParameterGraph.ToolNodes | src/graph_builder.py:156-161 | the result lists, once each and in node order, exactly the nodes typed `tool` |
| ParameterGraph.ParameterNodes | src/graph_builder.py:163-182 | with a type, the nodes of that type; without, the nodes of either parameter type; once each and in node order |
| GraphBuilder.AddToolNode | src/graph_builder.py:35-46 | returns `csv_file.tool_name`; that node is typed a tool and carries the call's tool attributes whatever it carried before, keeping only an earlier `param_name`; nothing else changes and the index is untouched |
| GraphBuilder.AddParameterNode | src/graph_builder.py:59-68 | returns the name; an indexed name leaves the builder unchanged; a new name is indexed and typed with the given kind, and the index stays within the nodes |
| GraphBuilder.AddInputEdge | src/graph_builder.py:79-84 | the pair holds one edge typed `requires_input` naming the parameter, merged into any earlier edge on the pair; no other edge changes |
| GraphBuilder.AddOutputEdge | src/graph_builder.py:96-101 | the pair holds one edge typed `produces_output` naming the parameter; no other edge changes |
| GraphBuilder.AddParam | src/graph_builder.py:140-147 | one key-loop iteration indexes the key, types it only if it was new, and links the tool to it with the direction's edge type |
| GraphBuilder.AddParams | src/graph_builder.py:140-147 | after the key loop every key is indexed and linked from the tool with the loop's edge type naming it; keys new to the index take the loop's kind; other nodes and edges are untouched |
| GraphBuilder.AddRecord | src/graph_builder.py:116-147 | one record adds its tool and keys, gives the tool the record's metadata, types new keys by first occurrence, makes shared keys `produces_output`, and keeps every other edge |
| GraphBuilder.FirstKind | src/graph_builder.py:59-65 | a key's kind is the one of the first record that mentions it, input when that record's input payload has it |
| GraphBuilder.Build | src/graph_builder.py:114-154 | after all records: nodes, index and edges are exactly those the records' tools and keys call for; tools carry their last record's metadata; keys have their first kind; each edge has the type the last record listing its key on that tool gave it (`produces_output` for an output key, else `requires_input`), even when later calls of the tool drop the key; earlier content outside the records is kept |
| GraphBuilder.BuildFromRecords | src/graph_builder.py:104-154 | the same, with keys extracted by `extract_keys` |
| GraphBuilder.BuildNodeKinds | src/graph_builder.py:133-182 | from a fresh builder without collisions, the tool filter returns exactly the record ids and the parameter filters exactly the keys, split by first kind |
| GraphBuilder.BuildToolCount | src/graph_builder.py:133-137 | the number of tool nodes is the number of distinct `source_file.tool_name` values |
| GraphBuilder.RepeatedCallKeepsEdge | src/graph_builder.py:133-147 | when two calls share a tool id, an input key only the first lists keeps its `requires_input` edge, and the tool carries the second call's metadata |
| GraphBuilder.TwoRecordsTwoTools | tests/test_integration.py:43-45 | two records with different ids give two tool nodes |
| GraphBuilder.CollisionRetypesTool | src/graph_builder.py:35-65 | a record whose own input key is spelled like its tool id leaves that node typed `input_param`, still carrying tool metadata, and missing from the tool filter |
| GraphBuilder.SharedKeyIsOutput | src/graph_builder.py:140-147 | a key in both payloads of a record ends with a single `produces_output` edge from its tool |
| GraphBuilder.ToolMetadataKeys | src/graph_builder.py:118-131 | a tool node's `input_keys`/`output_keys` are `extract_keys` of its last record's payloads |
| FlowDetector.Remove | src/flow_detector.py:114-115 | `replace(c, "")` leaves no `c` and keeps every other character once, in its order: a subsequence of the input whose length is the input's minus its count of `c` |
| FlowDetector.RemoveUnique | src/flow_detector.py:114-115 | any subsequence of the input without `c` and of that length is the result, so the order and multiplicity of the kept characters are fixed |
| FlowDetector.NormalizeIsCanonical | src/flow_detector.py:113-115 | lowercasing then removing `_` and `-` is the same as dropping separators and lowercasing character by character |
| FlowDetector.NormalizeIdempotent | src/flow_detector.py:113-115 | normalising a normalised name changes nothing |
| FlowDetector.NormalizeIgnoresSeparator | src/flow_detector.py:113-115 | inserting `_` or `-` anywhere does not change the normal form |
| FlowDetector.NormalizeIgnoresCase | src/flow_detector.py:114-115 | a name and its lower-case spelling have the same normal form |
| FlowDetector.Similarity | src/flow_detector.py:102-117 | the score lies in [0, 1] |
| FlowDetector.SimilarityOfSeparated | src/flow_detector.py:113-117 | names differing by a separator score alike against any name, on either side |
| FlowDetector.SimilarityIgnoresCase | src/flow_detector.py:113-117 | names differing in case score alike against any name, on either side |
| FlowDetector.OutputParams | src/flow_detector.py:146-154 | a name is an output of `t` exactly when the edge from `t` to it is typed `produces_output` |
| FlowDetector.InputParams | src/flow_detector.py:156-164 | a name is an input of `t` exactly when the edge from `t` to it is typed `requires_input` |
| FlowDetector.FindMatchingParams | src/flow_detector.py:67-100 | exact matches are exactly the shared names, with confidence 1.0; fuzzy matches appear only when enabled, come from names outside the intersection, are named `out~in` and score at least the threshold; every such pair is present |
| FlowDetector.ExactMatchesIndependentOfFuzzy | src/flow_detector.py:85-98 | the exact matches do not depend on the fuzzy settings |
| FlowDetector.DetectableFlows | src/flow_detector.py:28-65 | a flow is reported exactly when it joins two distinct tools and is a match of that pair |
| FlowDetector.DetectFlows | src/flow_detector.py:28-65 | the loops report every detectable flow once and nothing else, no flow from a tool to itself, grouped by pair in node order, and within a pair the exact flows before the fuzzy ones |
| FlowDetector.EmitPair | src/flow_detector.py:54-62 | the match loop appends one flow per entry of the match list, in the list's order, so a pair's exact flows precede its fuzzy ones; the flows stay duplicate-free and grouped by pair in order |
| FlowDetector.FindMatchingParamsList | src/flow_detector.py:82-100 | the returned list holds exactly the entries of `FindMatchingParams`, each once, and every exact entry comes before every fuzzy one |
| FlowDetector.FuzzyFlowWinsEdge | src/flow_detector.py:127-135 | in a flow list where each pair's exact flows precede its fuzzy ones, writing the list leaves the edge of any pair with a fuzzy flow tagged fuzzy, since a later `add_edge` overwrites the attributes |
| FlowDetector.AddFlowEdges | src/flow_detector.py:119-137 | every flow's pair holds a `potential_flow` edge with the last flow's attributes, keeping an earlier `parameter_name`; other edges are unchanged; missing endpoints become bare nodes |
| FlowDetector.AddFlowEdgesIdempotent | src/flow_detector.py:127-135 | writing the same flows twice gives the graph writing them once gives |
| FlowDetector.DetectionStableUnderAddFlowEdges | src/flow_detector.py:119-164 | when parameter edges point at non-tools, writing flows between tools leaves the detectable flows unchanged |
| FlowDetector.ExactFlowIff | src/flow_detector.py:85-87 | an exact flow between two distinct tools is reported exactly when the source produces the name and the target requires it |
| FlowDetector.DefaultDetectsExactOnly | src/flow_detector.py:17-26 | a detector with the constructor's defaults (threshold 0.8, fuzzy off) reports only exact flows of confidence 1.0 on a produced and required name |
| FlowDetector.FuzzyOffAllExact | src/flow_detector.py:90 | with fuzzy matching off every flow is exact, of confidence 1.0, on a produced and required name |
| FlowDetector.FuzzyFlowShape | src/flow_detector.py:90-98 | a fuzzy flow needs fuzzy matching on, and joins a produced and a required name that do not match exactly, named `out~in`, scoring at least the threshold |
| FlowDetector.ExactFlowsIndependentOfFuzzy | src/flow_detector.py:85-98 | changing the fuzzy settings leaves the exact flows as they are |
| FlowDetector.NoParamEdgesNoFlows | src/flow_detector.py:139-164 | a graph with no parameter edges has no flows |
| FlowDetector.SharedParameterOneFlow | tests/test_integration.py:84-94 | two tools where one produces `p` and the other requires it have exactly one flow, exact, of confidence 1.0, from the producer to the consumer |
| Pipeline.BuiltParamEdgesToParams | src/graph_builder.py:140-147 | without collisions, every edge of a fresh build points at a parameter node |
| Pipeline.WrittenFlowsStable | src/flow_detector.py:119-137 | without collisions, writing detected flows into a fresh build leaves what detection finds unchanged |

## Left out

- `json.loads` and `difflib.SequenceMatcher.ratio` are parameters, not
  models. So are Python's float parsing, NaN and Infinity.
- JsonExtractor.ExtractKeys: only `JSONDecodeError` and `TypeError` give
  `[]` (src/json_extractor.py:25-28). Other errors of `json.loads` (such as
  the `ValueError` for an integer literal longer than the interpreter's
  digit limit) and a `RecursionError` in the traversal of deeply nested
  JSON raise out of `extract_keys` and stop `build_from_records`. The model
  has no exceptions and does not represent this: its parser either answers
  a value or None.
- `logging` calls.
- The CSV parser, the exporters, the visualiser, the semantic matcher, the
  command line and the `models` module: file and network I/O, rendering, or
  pure data shapes. The semantic matcher's edge writer sets `edge_type`
  `semantic_flow` and a `reasoning` attribute, which `EdgeType` and
  `EdgeAttrs` do not represent; `MatchType.Semantic` is kept only as a
  `match_type` tag.
- Repeated member names in one JSON object: `json.loads` keeps one
  member per name. `Json` allows repeats and leaves it to the parser not to
  produce them.
- Attributes other than `node_type`, the tool metadata, `param_name`,
  `edge_type`, `parameter_name` and the flow fields. The core sets no others.
- FlowDetector.LowerChar: lowercases ASCII only, while `str.lower` also
  lowercases other scripts.
- FlowDetector.FindMatchingParams: a set, where the source returns a list.
  `FindMatchingParamsList` gives the list's exact-then-fuzzy order, but it
  also holds each entry once. Within the fuzzy phase it allows any order,
  while the source's nested loop groups the entries by output name; the
  edges `add_flow_edges` writes are the same either way. Two fuzzy pairs with the same `out~in` name and score (possible only when
  a name contains `~`) collapse into one entry.
- FlowDetector.DetectFlows: the order within the exact group and within
  the fuzzy group of one tool pair is left open, because it follows Python
  set iteration. The exact group always comes first.
- FlowDetector.OutputParams and FlowDetector.InputParams: for a string id
  that is not a node, networkx `out_edges` reads the string as a sequence of
  nodes and returns the out-edges of those of its single characters that are
  nodes. The model answers the empty set there. Detection only asks about
  tool nodes, where both agree.

`JsonExtractor.ExtractKeys` states the empty-result rule of `extract_keys`
as the code has it (src/json_extractor.py:21-28). Blank text, the `null` and
`None` sentinels and unparseable text give `[]`. Parseable text gives
whatever the traversal yields, which is also `[]` for `{}` (as
tests/test_json_extractor.py:48 expects) and for a JSON scalar.
