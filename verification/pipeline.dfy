/**
 * The builder and the detector together, as the command line drives them:
 * build the graph from the records, detect the flows, write them back.
 */
module Pipeline {
  import opened Wrappers
  import opened ParameterGraph
  import opened GraphBuilder
  import opened FlowDetector

  /** Without collisions, every edge of a fresh build is a parameter edge
      into a parameter node. */
  lemma BuiltParamEdgesToParams(extract: string -> seq<string>, records: seq<ApiRecord>)
    requires NoCollision(extract, records)
    ensures ParamEdgesToParams(Build(extract, NewBuilder, records).graph)
  {
    var r := Build(extract, NewBuilder, records);
    NodeTypesFromBuilt(extract, records, r);
    ParamEdgesFromBuilt(extract, records, r.graph);
  }

  lemma ParamEdgesFromBuilt(extract: string -> seq<string>, records: seq<ApiRecord>, g: Graph)
    requires forall e :: e in g.edges ==> LinkOfSome(extract, records, e)
    requires forall x :: KeyOfSome(extract, records, x) ==> x in g.nodes && g.nodes[x].nodeType == Some(FirstKind(extract, records, x))
    ensures ParamEdgesToParams(g)
  {
    forall e | e in g.edges
      ensures !IsTool(g, e.1)
    {
      var k :| 0 <= k < |records| && e.0 == RecordId(records[k])
        && (e.1 in InputKeys(extract, records[k]) || e.1 in OutputKeys(extract, records[k]));
      assert KeyOfSome(extract, records, e.1);
    }
  }

  /** Writing the detected flows into a fresh build changes nothing a
      second detection would see. */
  lemma WrittenFlowsStable(d: Detector, extract: string -> seq<string>, records: seq<ApiRecord>, g: Graph, flows: seq<Flow>)
    requires NoCollision(extract, records)
    requires g == Build(extract, NewBuilder, records).graph
    requires forall i :: 0 <= i < |flows| ==> flows[i] in DetectableFlows(d, g)
    ensures WellFormed(g)
    ensures DetectableFlows(d, AddFlowEdges(g, flows)) == DetectableFlows(d, g)
  {
    BuiltParamEdgesToParams(extract, records);
    DetectionStableUnderAddFlowEdges(d, g, flows);
  }
}
