/**
 * The flow detector (src/flow_detector.py): for every ordered pair of
 * distinct tool nodes, the names the source produces and the target
 * requires are matched exactly (set intersection) and, when fuzzy matching
 * is on, by a similarity ratio over normalised names; `add_flow_edges`
 * then writes one `potential_flow` edge per flow.
 *
 * `difflib.SequenceMatcher.ratio` is not modelled: it is the detector's
 * `ratio` field, any function of two strings with values in [0, 1].
 */
module FlowDetector {
  import opened Wrappers
  import opened ParameterGraph

  /** A similarity ratio between two strings. */
  type Ratio = f: (string, string) -> real | forall a: string, b: string :: 0.0 <= f(a, b) <= 1.0
    witness (a: string, b: string) => 0.0

  /** `FlowDetector(fuzzy_threshold, enable_fuzzy)`, with its ratio. */
  datatype Detector = Detector(fuzzyThreshold: real, enableFuzzy: bool, ratio: Ratio)

  /** The constructor's defaults: threshold 0.8, fuzzy matching off. */
  function DefaultDetector(ratio: Ratio): Detector {
    Detector(0.8, false, ratio)
  }

  /** One entry of `find_matching_params`: (param, confidence, match_type). */
  datatype Match = Match(param: string, confidence: real, matchType: MatchType)

  /** `PotentialFlow` */
  datatype Flow = Flow(sourceTool: string, targetTool: string, matchingParam: string, confidence: real, matchType: MatchType)

  /* ------------------------------------------------------------------ */
  /* Name normalisation of `_calculate_similarity`                       */
  /* ------------------------------------------------------------------ */

  predicate IsUpper(c: char) {
    'A' <= c <= 'Z'
  }

  /** `str.lower` on one character, for ASCII. */
  function LowerChar(c: char): (r: char)
    ensures !IsUpper(r)
    ensures IsUpper(c) ==> r as int == c as int + 32
    ensures !IsUpper(c) ==> r == c
  {
    if IsUpper(c) then (c as int + 32) as char else c
  }

  function Lower(s: string): (r: string)
    ensures |r| == |s|
    ensures forall i :: 0 <= i < |s| ==> r[i] == LowerChar(s[i])
  {
    if s == [] then [] else [LowerChar(s[0])] + Lower(s[1..])
  }

  /** How many times `c` occurs in `s`. */
  function Occurrences(s: string, c: char): (n: nat)
    ensures n <= |s|
    ensures n == 0 <==> c !in s
  {
    if s == [] then 0 else (if s[0] == c then 1 else 0) + Occurrences(s[1..], c)
  }

  /** `str.replace(c, "")`: the other characters, each kept once, in
      their order (a subsequence of `s` this long without `c` is unique). */
  function Remove(s: string, c: char): (r: string)
    ensures c !in r
    ensures forall x :: x in r <==> x in s && x != c
    ensures Subsequence(r, s)
    ensures |r| == |s| - Occurrences(s, c)
  {
    if s == [] then []
    else if s[0] == c then Remove(s[1..], c)
    else [s[0]] + Remove(s[1..], c)
  }

  /** A subsequence without `c` is no longer than what removing `c` leaves. */
  lemma {:induction false} AvoidingLength(t: string, s: string, c: char)
    requires c !in t && Subsequence(t, s)
    ensures |t| <= |s| - Occurrences(s, c)
    decreases |s|
  {
    if |t| > 0 {
      if t[0] == s[0] {
        AvoidingLength(t[1..], s[1..], c);
      } else {
        AvoidingLength(t, s[1..], c);
      }
    }
  }

  /** `Remove` is the only subsequence of `s` of its length without `c`:
      keeping the characters in another order, or dropping another one,
      gives a different string. */
  lemma {:induction false} RemoveUnique(s: string, c: char, t: string)
    requires c !in t && Subsequence(t, s) && |t| == |s| - Occurrences(s, c)
    ensures t == Remove(s, c)
    decreases |s|
  {
    if |s| > 0 {
      if |t| > 0 && t[0] == s[0] {
        RemoveUnique(s[1..], c, t[1..]);
        assert t == [t[0]] + t[1..];
      } else if |t| > 0 {
        AvoidingLength(t, s[1..], c);
        RemoveUnique(s[1..], c, t);
      } else {
        RemoveUnique(s[1..], c, t);
      }
    }
  }

  /** The separators the normalisation strips. */
  predicate IsSeparator(c: char) {
    c == '_' || c == '-'
  }

  /** `str.lower().replace("_", "").replace("-", "")` */
  function Normalize(s: string): string {
    Remove(Remove(Lower(s), '_'), '-')
  }

  /** The normalised name, character by character: every character of the
      name that is not a separator, lowered, in order. */
  function Canonical(s: string): string {
    if s == [] then []
    else if IsSeparator(s[0]) then Canonical(s[1..])
    else [LowerChar(s[0])] + Canonical(s[1..])
  }

  lemma {:induction false} RemoveAppend(a: string, b: string, c: char)
    ensures Remove(a + b, c) == Remove(a, c) + Remove(b, c)
  {
    if a == [] {
      assert a + b == b;
    } else {
      assert (a + b)[0] == a[0];
      assert (a + b)[1..] == a[1..] + b;
      RemoveAppend(a[1..], b, c);
    }
  }

  /** Normalize agrees with the character-by-character definition. */
  lemma {:induction false} NormalizeIsCanonical(s: string)
    ensures Normalize(s) == Canonical(s)
  {
    if s != [] {
      var x, rest := LowerChar(s[0]), Lower(s[1..]);
      NormalizeIsCanonical(s[1..]);
      assert Lower(s) == [x] + rest;
      RemoveAppend([x], rest, '_');
      RemoveAppend(Remove([x], '_'), Remove(rest, '_'), '-');
      assert Remove(Remove([x], '_'), '-') == if IsSeparator(s[0]) then [] else [x] by {
        assert [x][1..] == [];
      }
    }
  }

  lemma {:induction false} CanonicalAppend(a: string, b: string)
    ensures Canonical(a + b) == Canonical(a) + Canonical(b)
  {
    if a == [] {
      assert a + b == b;
    } else {
      assert (a + b)[0] == a[0];
      assert (a + b)[1..] == a[1..] + b;
      CanonicalAppend(a[1..], b);
    }
  }

  /** A normalised name has no separator and no upper-case letter. */
  lemma {:induction false} CanonicalChars(s: string)
    ensures forall c :: c in Canonical(s) ==> !IsSeparator(c) && !IsUpper(c)
  {
    if s != [] {
      CanonicalChars(s[1..]);
    }
  }

  /** A name without separators or upper-case letters is its own form. */
  lemma {:induction false} CanonicalFixed(s: string)
    requires forall c :: c in s ==> !IsSeparator(c) && !IsUpper(c)
    ensures Canonical(s) == s
  {
    if s != [] {
      assert s[0] in s;
      assert forall c :: c in s[1..] ==> c in s;
      CanonicalFixed(s[1..]);
      assert s == [s[0]] + s[1..];
    }
  }

  /** Normalising twice is normalising once. */
  lemma NormalizeIdempotent(s: string)
    ensures Normalize(Normalize(s)) == Normalize(s)
  {
    NormalizeIsCanonical(s);
    NormalizeIsCanonical(Canonical(s));
    CanonicalChars(s);
    CanonicalFixed(Canonical(s));
  }

  /** Inserting a separator anywhere does not change the normalised name. */
  lemma NormalizeIgnoresSeparator(a: string, sep: char, b: string)
    requires IsSeparator(sep)
    ensures Normalize(a + [sep] + b) == Normalize(a + b)
  {
    NormalizeIsCanonical(a + [sep] + b);
    NormalizeIsCanonical(a + b);
    CanonicalIgnoresSeparator(a, sep, b);
  }

  lemma CanonicalIgnoresSeparator(a: string, sep: char, b: string)
    requires IsSeparator(sep)
    ensures Canonical(a + [sep] + b) == Canonical(a + b)
  {
    CanonicalAppend(a + [sep], b);
    CanonicalAppend(a, [sep]);
    CanonicalAppend(a, b);
    assert Canonical([sep]) == Canonical([sep][1..]);
  }

  /** ASCII case does not change the normalised name. */
  lemma {:induction false} NormalizeIgnoresCase(s: string)
    ensures Normalize(Lower(s)) == Normalize(s)
  {
    NormalizeIsCanonical(s);
    NormalizeIsCanonical(Lower(s));
    CanonicalOfLower(s);
  }

  lemma {:induction false} CanonicalOfLower(s: string)
    ensures Canonical(Lower(s)) == Canonical(s)
  {
    if s != [] {
      CanonicalOfLower(s[1..]);
      assert Lower(s) == [LowerChar(s[0])] + Lower(s[1..]);
      assert Lower(s)[1..] == Lower(s[1..]);
    }
  }

  /** `_calculate_similarity`: the ratio of the normalised names. */
  function Similarity(d: Detector, a: string, b: string): (r: real)
    ensures 0.0 <= r <= 1.0
  {
    d.ratio(Normalize(a), Normalize(b))
  }

  /** Two names that normalise alike score alike against any name, so
      `user_id`, `userId` and `USER-ID` are interchangeable. */
  lemma SimilarityOfSeparated(d: Detector, a: string, sep: char, b: string, other: string)
    requires IsSeparator(sep)
    ensures Similarity(d, a + [sep] + b, other) == Similarity(d, a + b, other)
    ensures Similarity(d, other, a + [sep] + b) == Similarity(d, other, a + b)
  {
    NormalizeIgnoresSeparator(a, sep, b);
  }

  /** Case does not count: a name scores as its lower-case spelling. */
  lemma SimilarityIgnoresCase(d: Detector, a: string, other: string)
    ensures Similarity(d, Lower(a), other) == Similarity(d, a, other)
    ensures Similarity(d, other, Lower(a)) == Similarity(d, other, a)
  {
    NormalizeIgnoresCase(a);
  }

  /* ------------------------------------------------------------------ */
  /* Parameters of a tool                                               */
  /* ------------------------------------------------------------------ */

  /** The targets of `t`'s out-edges tagged with `edgeType`. */
  function ParamsOf(g: Graph, t: string, edgeType: EdgeType): (r: set<string>)
    ensures forall p :: p in r <==> (t, p) in g.edges && g.edges[(t, p)].edgeType == edgeType
  {
    set e | e in g.edges && e.0 == t && g.edges[e].edgeType == edgeType :: e.1
  }

  /** `_get_output_params` */
  function OutputParams(g: Graph, t: string): (r: set<string>)
    ensures forall p :: p in r <==> EdgeTypeAt(g, (t, p)) == Some(ProducesOutput)
  {
    ParamsOf(g, t, ProducesOutput)
  }

  /** `_get_input_params` */
  function InputParams(g: Graph, t: string): (r: set<string>)
    ensures forall p :: p in r <==> EdgeTypeAt(g, (t, p)) == Some(RequiresInput)
  {
    ParamsOf(g, t, RequiresInput)
  }

  /* ------------------------------------------------------------------ */
  /* Matching                                                           */
  /* ------------------------------------------------------------------ */

  /** The fuzzy name of a pair: `{out}~{in}`. */
  function FuzzyName(o: string, i: string): string {
    o + "~" + i
  }

  /** The exact phase: one match per shared name. */
  function ExactMatches(outs: set<string>, ins: set<string>): set<Match> {
    set p | p in outs * ins :: Match(p, 1.0, Exact)
  }

  /** The fuzzy phase: every pair of leftover names scoring at or above
      the threshold. */
  function FuzzyMatches(d: Detector, outs: set<string>, ins: set<string>): set<Match> {
    set o, i | o in outs - ins && i in ins - outs && Similarity(d, o, i) >= d.fuzzyThreshold ::
      Match(FuzzyName(o, i), Similarity(d, o, i), Fuzzy)
  }

  /** The entries of `find_matching_params`, as a set; the list itself,
      with its exact-then-fuzzy order, is `FindMatchingParamsList`. */
  function FindMatchingParams(d: Detector, outs: set<string>, ins: set<string>): (r: set<Match>)
    ensures forall p :: Match(p, 1.0, Exact) in r <==> p in outs && p in ins
    ensures forall m :: m in r && m.matchType == Exact ==> m.confidence == 1.0 && m.param in outs && m.param in ins
    ensures forall m :: m in r ==> m.matchType == Exact || (d.enableFuzzy && m.matchType == Fuzzy)
    ensures forall m :: m in r && m.matchType == Fuzzy ==>
      exists o, i :: o in outs && o !in ins && i in ins && i !in outs
        && m == Match(FuzzyName(o, i), Similarity(d, o, i), Fuzzy) && m.confidence >= d.fuzzyThreshold
    ensures forall o, i ::
      (d.enableFuzzy && o in outs && o !in ins && i in ins && i !in outs && Similarity(d, o, i) >= d.fuzzyThreshold)
      ==> Match(FuzzyName(o, i), Similarity(d, o, i), Fuzzy) in r
  {
    ExactMatches(outs, ins) + if d.enableFuzzy then FuzzyMatches(d, outs, ins) else {}
  }

  /** The exact matches do not depend on the fuzzy settings. */
  lemma ExactMatchesIndependentOfFuzzy(d: Detector, d': Detector, outs: set<string>, ins: set<string>)
    ensures (set m | m in FindMatchingParams(d, outs, ins) && m.matchType == Exact)
         == (set m | m in FindMatchingParams(d', outs, ins) && m.matchType == Exact)
  {
    assert forall m :: m in FindMatchingParams(d, outs, ins) && m.matchType == Exact <==> m in ExactMatches(outs, ins);
    assert forall m :: m in FindMatchingParams(d', outs, ins) && m.matchType == Exact <==> m in ExactMatches(outs, ins);
  }

  /** No exact match follows a fuzzy one: the exact phase of
      `find_matching_params` runs to completion before the fuzzy phase. */
  predicate PhaseOrdered(ms: seq<Match>) {
    forall i, j :: 0 <= i < j < |ms| && ms[i].matchType == Fuzzy ==> ms[j].matchType == Fuzzy
  }

  /** `find_matching_params` as the list it returns: the exact matches,
      then (when enabled) the fuzzy ones, each phase in the order its set
      iteration happens to give. The fuzzy phase is a nested loop, outputs
      outside and inputs inside, so its list is grouped by output name;
      the model allows any order of the fuzzy entries, more orders than the
      loop produces. */
  method FindMatchingParamsList(d: Detector, outs: set<string>, ins: set<string>) returns (ms: seq<Match>)
    ensures forall m :: m in ms <==> m in FindMatchingParams(d, outs, ins)
    ensures NoDup(ms)
    ensures PhaseOrdered(ms)
  {
    var exact := ExactMatches(outs, ins);
    var fuzzy := if d.enableFuzzy then FuzzyMatches(d, outs, ins) else {};
    PhaseTypes(d, outs, ins);
    var first := Enumerate(exact);
    var second := Enumerate(fuzzy);
    ms := first + second;
    forall i, j | 0 <= i < j < |ms| && ms[i].matchType == Fuzzy
      ensures ms[j].matchType == Fuzzy
    {
      assert ms[j] == second[j - |first|];
      assert ms[j] in fuzzy;
    }
    forall i, j | 0 <= i < j < |ms|
      ensures ms[i] != ms[j]
    {
      if i < |first| && j >= |first| {
        assert ms[i] in exact && ms[j] == second[j - |first|] && ms[j] in fuzzy;
      } else if i >= |first| {
        assert ms[i] == second[i - |first|] && ms[j] == second[j - |first|];
      }
    }
  }

  /** The two phases produce matches of their own type. */
  lemma PhaseTypes(d: Detector, outs: set<string>, ins: set<string>)
    ensures forall m :: m in ExactMatches(outs, ins) ==> m.matchType == Exact
    ensures forall m :: m in FuzzyMatches(d, outs, ins) ==> m.matchType == Fuzzy
  {
  }

  /** A `for` loop over a Python set: every element once, in an order the
      set chooses. */
  method Enumerate(s: set<Match>) returns (ms: seq<Match>)
    ensures forall m :: m in ms <==> m in s
    ensures NoDup(ms)
  {
    ms := [];
    var rest := s;
    while rest != {}
      decreases |rest|
      invariant rest <= s
      invariant forall m :: m in ms <==> m in s - rest
      invariant NoDup(ms)
    {
      var m :| m in rest;
      ms := ms + [m];
      rest := rest - {m};
    }
  }

  /* ------------------------------------------------------------------ */
  /* Detection, as a set                                                */
  /* ------------------------------------------------------------------ */

  predicate IsTool(g: Graph, x: string) {
    x in g.nodes && g.nodes[x].nodeType == Some(Tool)
  }

  /** The flows of one ordered pair of tools. */
  function PairFlows(d: Detector, g: Graph, s: string, t: string): (r: set<Flow>)
    ensures forall f :: f in r <==>
      (f.sourceTool == s && f.targetTool == t
       && Match(f.matchingParam, f.confidence, f.matchType) in FindMatchingParams(d, OutputParams(g, s), InputParams(g, t)))
  {
    var ms := FindMatchingParams(d, OutputParams(g, s), InputParams(g, t));
    var r := set m | m in ms :: Flow(s, t, m.param, m.confidence, m.matchType);
    assert forall f: Flow :: f.sourceTool == s && f.targetTool == t && Match(f.matchingParam, f.confidence, f.matchType) in ms ==>
      var m := Match(f.matchingParam, f.confidence, f.matchType); f == Flow(s, t, m.param, m.confidence, m.matchType);
    r
  }

  /** Every flow `detect_flows` can report, whatever the order. */
  function DetectableFlows(d: Detector, g: Graph): (r: set<Flow>)
    ensures forall f :: f in r <==>
      (IsTool(g, f.sourceTool) && IsTool(g, f.targetTool) && f.sourceTool != f.targetTool
       && f in PairFlows(d, g, f.sourceTool, f.targetTool))
  {
    var tools := set x | x in g.nodes && g.nodes[x].nodeType == Some(Tool);
    var r := set s, t, f | s in tools && t in tools && s != t && f in PairFlows(d, g, s, t) :: f;
    assert forall f: Flow :: IsTool(g, f.sourceTool) ==> f.sourceTool in tools;
    assert forall f: Flow :: IsTool(g, f.targetTool) ==> f.targetTool in tools;
    r
  }

  /* ------------------------------------------------------------------ */
  /* Detection, in order                                                */
  /* ------------------------------------------------------------------ */

  /** The index of `x` in `s` (its first one). */
  function Pos(s: seq<string>, x: string): (i: nat)
    requires x in s
    ensures i < |s| && s[i] == x
    ensures forall j :: 0 <= j < i ==> s[j] != x
  {
    if s[0] == x then 0 else 1 + Pos(s[1..], x)
  }

  lemma PosOfIndex(s: seq<string>, i: nat)
    requires NoDup(s) && i < |s|
    ensures Pos(s, s[i]) == i
  {
  }

  /** Flow `f` comes from the pair (source index `a`, target index `b`)
      of `tools`, or an earlier one in the order of the two loops. */
  predicate PairAtOrBefore(tools: seq<string>, f: Flow, a: int, b: int) {
    && f.sourceTool in tools && f.targetTool in tools
    && (Pos(tools, f.sourceTool) < a || (Pos(tools, f.sourceTool) == a && Pos(tools, f.targetTool) <= b))
  }

  /** Flows are grouped by tool pair, source tools in `tools` order and,
      for one source, target tools in `tools` order. */
  predicate Ordered(tools: seq<string>, flows: seq<Flow>) {
    && (forall f :: f in flows ==> f.sourceTool in tools && f.targetTool in tools)
    && forall i, j :: 0 <= i < j < |flows| ==>
         PairAtOrBefore(tools, flows[i], Pos(tools, flows[j].sourceTool), Pos(tools, flows[j].targetTool))
  }

  /** Within one tool pair, no exact flow follows a fuzzy one. */
  predicate ExactFirst(flows: seq<Flow>) {
    forall i, j :: 0 <= i < j < |flows| && PairOf(flows[i]) == PairOf(flows[j]) && flows[i].matchType == Fuzzy ==>
      flows[j].matchType == Fuzzy
  }

  /** The flows of the pairs the two loops have finished before reaching
      (source index `a`, target index `b`). */
  predicate EmittedBefore(d: Detector, g: Graph, tools: seq<string>, a: int, b: int, f: Flow) {
    && f.sourceTool in tools && f.targetTool in tools && f.sourceTool != f.targetTool
    && (Pos(tools, f.sourceTool) < a || (Pos(tools, f.sourceTool) == a && Pos(tools, f.targetTool) < b))
    && f in PairFlows(d, g, f.sourceTool, f.targetTool)
  }

  /** `detect_flows`: every ordered pair of distinct tool nodes in node
      order, and for each its matches in the order `find_matching_params`
      lists them: exact ones first, then fuzzy ones. */
  method DetectFlows(d: Detector, g: Graph) returns (flows: seq<Flow>)
    requires WellFormed(g)
    ensures forall f :: f in flows <==> f in DetectableFlows(d, g)
    ensures NoDup(flows)
    ensures Ordered(ToolNodes(g), flows)
    ensures ExactFirst(flows)
    ensures forall f :: f in flows ==> f.sourceTool != f.targetTool
  {
    var tools := ToolNodes(g);
    flows := [];
    var si := 0;
    while si < |tools|
      invariant 0 <= si <= |tools|
      invariant forall f :: f in flows <==> EmittedBefore(d, g, tools, si, 0, f)
      invariant NoDup(flows) && ExactFirst(flows)
      invariant Ordered(tools, flows)
    {
      var source := tools[si];
      PosOfIndex(tools, si);
      var outputs := OutputParams(g, source);
      var ti := 0;
      while ti < |tools|
        invariant 0 <= ti <= |tools|
        invariant forall f :: f in flows <==> EmittedBefore(d, g, tools, si, ti, f)
        invariant NoDup(flows) && ExactFirst(flows)
        invariant Ordered(tools, flows)
      {
        var target := tools[ti];
        PosOfIndex(tools, ti);
        if si != ti {
          var matches := FindMatchingParamsList(d, outputs, InputParams(g, target));
          EmittedNext(d, g, tools, si, ti);
          EmittedBeforePair(d, g, tools, si, ti, flows);
          flows := EmitPair(tools, si, ti, flows, matches);
        } else {
          EmittedSelf(d, g, tools, si);
        }
        ti := ti + 1;
      }
      EmittedRow(d, g, tools, si);
      si := si + 1;
    }
    EmittedAll(d, g, tools);
  }

  /** The flows emitted before (`si`, `ti`) belong to earlier pairs. */
  lemma EmittedBeforePair(d: Detector, g: Graph, tools: seq<string>, si: nat, ti: nat, flows: seq<Flow>)
    requires NoDup(tools) && si < |tools| && ti < |tools|
    requires forall f :: f in flows <==> EmittedBefore(d, g, tools, si, ti, f)
    ensures forall x :: x in flows ==> PairAtOrBefore(tools, x, si, ti)
    ensures forall x :: x in flows ==> x.sourceTool != tools[si] || x.targetTool != tools[ti]
  {
    PosOfIndex(tools, si);
    PosOfIndex(tools, ti);
  }

  /** A tool paired with itself adds nothing. */
  lemma EmittedSelf(d: Detector, g: Graph, tools: seq<string>, si: nat)
    requires NoDup(tools) && si < |tools|
    ensures forall f :: EmittedBefore(d, g, tools, si, si + 1, f) <==> EmittedBefore(d, g, tools, si, si, f)
  {
    PosOfIndex(tools, si);
  }

  /** Finishing every target of source `si` is starting source `si` + 1. */
  lemma EmittedRow(d: Detector, g: Graph, tools: seq<string>, si: nat)
    ensures forall f :: EmittedBefore(d, g, tools, si, |tools|, f) <==> EmittedBefore(d, g, tools, si + 1, 0, f)
  {
  }

  /** Finishing every source is finding every flow. */
  lemma EmittedAll(d: Detector, g: Graph, tools: seq<string>)
    requires WellFormed(g) && tools == ToolNodes(g)
    ensures forall f :: EmittedBefore(d, g, tools, |tools|, 0, f) <==> f in DetectableFlows(d, g)
  {
  }

  /** The flow the innermost loop of `detect_flows` builds from a match. */
  function FlowOf(source: string, target: string, m: Match): Flow {
    Flow(source, target, m.param, m.confidence, m.matchType)
  }

  /** The innermost loop of `detect_flows`: one flow per match of the pair
      (`tools[si]`, `tools[ti]`), appended in the order of the matches. */
  method EmitPair(tools: seq<string>, si: nat, ti: nat, flows0: seq<Flow>, matches: seq<Match>)
    returns (flows: seq<Flow>)
    requires NoDup(tools) && si < |tools| && ti < |tools|
    requires NoDup(flows0) && Ordered(tools, flows0) && ExactFirst(flows0)
    requires forall x :: x in flows0 ==> PairAtOrBefore(tools, x, si, ti)
    requires forall x :: x in flows0 ==> x.sourceTool != tools[si] || x.targetTool != tools[ti]
    requires NoDup(matches) && PhaseOrdered(matches)
    ensures |flows| == |flows0| + |matches| && flows[..|flows0|] == flows0
    ensures forall k :: 0 <= k < |matches| ==> flows[|flows0| + k] == FlowOf(tools[si], tools[ti], matches[k])
    ensures forall f :: f in flows <==>
      (f in flows0 || (f.sourceTool == tools[si] && f.targetTool == tools[ti]
                       && Match(f.matchingParam, f.confidence, f.matchType) in matches))
    ensures NoDup(flows) && Ordered(tools, flows) && ExactFirst(flows)
  {
    var source, target := tools[si], tools[ti];
    flows := flows0;
    var k := 0;
    while k < |matches|
      invariant 0 <= k <= |matches|
      invariant |flows| == |flows0| + k && flows[..|flows0|] == flows0
      invariant forall j :: 0 <= j < k ==> flows[|flows0| + j] == FlowOf(source, target, matches[j])
      invariant forall f :: f in flows <==>
        (f in flows0 || (f.sourceTool == source && f.targetTool == target
                         && Match(f.matchingParam, f.confidence, f.matchType) in matches[..k]))
      invariant forall x :: x in flows ==> PairAtOrBefore(tools, x, si, ti)
      invariant NoDup(flows) && Ordered(tools, flows) && ExactFirst(flows)
    {
      var f := FlowOf(source, target, matches[k]);
      AppendInOrder(tools, flows, f, si, ti);
      AppendExactFirst(flows0, flows, matches, k, source, target);
      PosOfIndex(tools, si);
      PosOfIndex(tools, ti);
      assert matches[..k + 1] == matches[..k] + [matches[k]];
      flows := flows + [f];
      k := k + 1;
    }
    assert matches[..k] == matches;
  }

  /** Appending the flow of match `k` keeps the flows duplicate-free and
      exact-first: the pair's earlier flows come from earlier matches. */
  lemma AppendExactFirst(flows0: seq<Flow>, flows: seq<Flow>, matches: seq<Match>, k: nat, source: string, target: string)
    requires k < |matches| && NoDup(matches) && PhaseOrdered(matches)
    requires NoDup(flows) && ExactFirst(flows)
    requires forall x :: x in flows0 ==> x.sourceTool != source || x.targetTool != target
    requires |flows| == |flows0| + k && flows[..|flows0|] == flows0
    requires forall j :: 0 <= j < k ==> flows[|flows0| + j] == FlowOf(source, target, matches[j])
    ensures NoDup(flows + [FlowOf(source, target, matches[k])])
    ensures ExactFirst(flows + [FlowOf(source, target, matches[k])])
  {
    var f := FlowOf(source, target, matches[k]);
    var r := flows + [f];
    assert forall i :: 0 <= i < |flows0| ==> flows[i] == flows0[i];
    forall i, j | 0 <= i < j < |r| && PairOf(r[i]) == PairOf(r[j]) && r[i].matchType == Fuzzy
      ensures r[j].matchType == Fuzzy
    {
      if j == |flows| {
        assert r[i] == flows[i];
        assert matches[i - |flows0|].matchType == Fuzzy;
      } else {
        assert r[i] == flows[i] && r[j] == flows[j];
      }
    }
    forall i, j | 0 <= i < j < |r|
      ensures r[i] != r[j]
    {
      if j == |flows| {
        assert r[i] == flows[i];
        if PairOf(flows[i]) == PairOf(f) {
          assert matches[i - |flows0|] != matches[k];
        }
      } else {
        assert r[i] == flows[i] && r[j] == flows[j];
      }
    }
  }

  /** Appending a flow of the pair (`si`, `ti`) after flows of that pair
      or earlier ones keeps the order. */
  lemma AppendInOrder(tools: seq<string>, flows: seq<Flow>, f: Flow, si: nat, ti: nat)
    requires NoDup(tools) && si < |tools| && ti < |tools|
    requires f.sourceTool == tools[si] && f.targetTool == tools[ti]
    requires Ordered(tools, flows)
    requires forall x :: x in flows ==> PairAtOrBefore(tools, x, si, ti)
    ensures Ordered(tools, flows + [f])
  {
    PosOfIndex(tools, si);
    PosOfIndex(tools, ti);
    var r := flows + [f];
    forall i, j | 0 <= i < j < |r|
      ensures PairAtOrBefore(tools, r[i], Pos(tools, r[j].sourceTool), Pos(tools, r[j].targetTool))
    {
      if j == |flows| {
        assert r[i] in flows;
      } else {
        assert r[i] == flows[i] && r[j] == flows[j];
      }
    }
  }

  /** The pairs finished before (`si`, `ti` + 1) are those finished before
      (`si`, `ti`) and the pair itself. */
  lemma EmittedNext(d: Detector, g: Graph, tools: seq<string>, si: nat, ti: nat)
    requires NoDup(tools) && si < |tools| && ti < |tools| && si != ti
    ensures forall f :: EmittedBefore(d, g, tools, si, ti + 1, f) <==>
      (EmittedBefore(d, g, tools, si, ti, f)
       || (f.sourceTool == tools[si] && f.targetTool == tools[ti]
           && Match(f.matchingParam, f.confidence, f.matchType) in FindMatchingParams(d, OutputParams(g, tools[si]), InputParams(g, tools[ti]))))
  {
    PosOfIndex(tools, si);
    PosOfIndex(tools, ti);
  }

  /* ------------------------------------------------------------------ */
  /* Writing the flows                                                  */
  /* ------------------------------------------------------------------ */

  function PairOf(f: Flow): (string, string) {
    (f.sourceTool, f.targetTool)
  }

  /** The attributes `add_flow_edges` sets besides `edge_type`. */
  function FlowAttrsOf(f: Flow): FlowAttrs {
    FlowAttrs(f.matchingParam, f.confidence, f.matchType)
  }

  /** Some flow joins the pair `e`. */
  predicate OnSomeFlow(flows: seq<Flow>, e: (string, string)) {
    exists i :: 0 <= i < |flows| && PairOf(flows[i]) == e
  }

  /** No later flow joins the same pair as flow `i`. */
  predicate LastOnPair(flows: seq<Flow>, i: int) {
    0 <= i < |flows| && forall j :: i < j < |flows| ==> PairOf(flows[j]) != PairOf(flows[i])
  }

  /** `x` is an endpoint of some flow. */
  predicate EndpointOfSome(flows: seq<Flow>, x: string) {
    exists i :: 0 <= i < |flows| && (flows[i].sourceTool == x || flows[i].targetTool == x)
  }

  /** What `add_flow_edges` does to the edges. A pair some flow joins holds
      one `potential_flow` edge with the attributes of the LAST flow on that
      pair, keeping the `parameter_name` of an edge that was there before;
      every other edge is unchanged. */
  ghost predicate FlowEdges(g: Graph, r: Graph, flows: seq<Flow>) {
    FlowEdgeSet(g, r, flows) && FlowEdgeAttrs(g, r, flows)
  }

  ghost predicate FlowEdgeSet(g: Graph, r: Graph, flows: seq<Flow>) {
    && (forall e :: e in r.edges <==> e in g.edges || OnSomeFlow(flows, e))
    && (forall e :: e in g.edges && !OnSomeFlow(flows, e) ==> r.edges[e] == g.edges[e])
  }

  ghost predicate FlowEdgeAttrs(g: Graph, r: Graph, flows: seq<Flow>) {
    FlowEdgeTypes(g, r, flows) && FlowEdgeLast(r, flows)
  }

  ghost predicate FlowEdgeTypes(g: Graph, r: Graph, flows: seq<Flow>) {
    && (forall e :: OnSomeFlow(flows, e) ==> e in r.edges && r.edges[e].edgeType == PotentialFlow)
    && (forall e :: OnSomeFlow(flows, e) ==>
          e in r.edges && r.edges[e].parameterName == if e in g.edges then g.edges[e].parameterName else None)
  }

  ghost predicate FlowEdgeLast(r: Graph, flows: seq<Flow>) {
    forall i :: LastOnPair(flows, i) ==>
      PairOf(flows[i]) in r.edges && r.edges[PairOf(flows[i])].flow == Some(FlowAttrsOf(flows[i]))
  }

  /** What `add_flow_edges` does to the nodes: a missing endpoint becomes a
      node with no attributes and no other node changes. */
  ghost predicate FlowNodes(g: Graph, r: Graph, flows: seq<Flow>) {
    && (forall x :: x in r.nodes <==> x in g.nodes || EndpointOfSome(flows, x))
    && (forall x :: x in g.nodes ==> r.nodes[x] == g.nodes[x])
    && (forall x :: x in r.nodes && x !in g.nodes ==> r.nodes[x] == NoAttrs)
    && g.order <= r.order
  }

  /** Every flow joins two nodes of the graph. */
  predicate Endpoints(g: Graph, flows: seq<Flow>) {
    forall i :: 0 <= i < |flows| ==> flows[i].sourceTool in g.nodes && flows[i].targetTool in g.nodes
  }

  /** `add_flow_edges` */
  function AddFlowEdges(g: Graph, flows: seq<Flow>): (r: Graph)
    requires WellFormed(g)
    ensures WellFormed(r)
    ensures FlowEdges(g, r, flows)
    ensures FlowNodes(g, r, flows)
    ensures Endpoints(g, flows) ==> r.nodes == g.nodes && r.order == g.order
    decreases |flows|
  {
    if |flows| == 0 then g
    else
      var n := |flows| - 1;
      var f := flows[n];
      var g1 := AddFlowEdges(g, flows[..n]);
      var r := AddEdge(g1, f.sourceTool, f.targetTool, EdgeAttrs(PotentialFlow, None, Some(FlowAttrsOf(f))));
      FlowEdgesStep(g, g1, r, flows);
      FlowNodesStep(g, g1, r, flows);
      r
  }

  /** The edge effect of `add_flow_edges` extends by one flow. */
  lemma FlowEdgesStep(g: Graph, g1: Graph, r: Graph, flows: seq<Flow>)
    requires |flows| > 0
    requires FlowEdges(g, g1, flows[..|flows| - 1])
    requires var f := flows[|flows| - 1];
      r.edges == g1.edges[PairOf(f) := MergeEdge(EdgeOr(g1, PairOf(f)), EdgeAttrs(PotentialFlow, None, Some(FlowAttrsOf(f))))]
    ensures FlowEdges(g, r, flows)
  {
    OnSomeFlowSplit(flows);
    FlowEdgeSetStep(g, g1, r, flows);
    FlowEdgeAttrsStep(g, g1, r, flows);
  }

  lemma FlowEdgeSetStep(g: Graph, g1: Graph, r: Graph, flows: seq<Flow>)
    requires |flows| > 0
    requires FlowEdgeSet(g, g1, flows[..|flows| - 1])
    requires forall e :: OnSomeFlow(flows, e) <==> OnSomeFlow(flows[..|flows| - 1], e) || e == PairOf(flows[|flows| - 1])
    requires var f := flows[|flows| - 1];
      r.edges == g1.edges[PairOf(f) := MergeEdge(EdgeOr(g1, PairOf(f)), EdgeAttrs(PotentialFlow, None, Some(FlowAttrsOf(f))))]
    ensures FlowEdgeSet(g, r, flows)
  {
  }

  lemma FlowEdgeAttrsStep(g: Graph, g1: Graph, r: Graph, flows: seq<Flow>)
    requires |flows| > 0
    requires FlowEdgeSet(g, g1, flows[..|flows| - 1]) && FlowEdgeAttrs(g, g1, flows[..|flows| - 1])
    requires forall e :: OnSomeFlow(flows, e) <==> OnSomeFlow(flows[..|flows| - 1], e) || e == PairOf(flows[|flows| - 1])
    requires var f := flows[|flows| - 1];
      r.edges == g1.edges[PairOf(f) := MergeEdge(EdgeOr(g1, PairOf(f)), EdgeAttrs(PotentialFlow, None, Some(FlowAttrsOf(f))))]
    ensures FlowEdgeAttrs(g, r, flows)
  {
    FlowEdgeTypesStep(g, g1, r, flows);
    FlowEdgeLastStep(g1, r, flows);
  }

  lemma FlowEdgeTypesStep(g: Graph, g1: Graph, r: Graph, flows: seq<Flow>)
    requires |flows| > 0
    requires FlowEdgeSet(g, g1, flows[..|flows| - 1]) && FlowEdgeTypes(g, g1, flows[..|flows| - 1])
    requires forall e :: OnSomeFlow(flows, e) <==> OnSomeFlow(flows[..|flows| - 1], e) || e == PairOf(flows[|flows| - 1])
    requires var f := flows[|flows| - 1];
      r.edges == g1.edges[PairOf(f) := MergeEdge(EdgeOr(g1, PairOf(f)), EdgeAttrs(PotentialFlow, None, Some(FlowAttrsOf(f))))]
    ensures FlowEdgeTypes(g, r, flows)
  {
  }

  lemma FlowEdgeLastStep(g1: Graph, r: Graph, flows: seq<Flow>)
    requires |flows| > 0
    requires FlowEdgeLast(g1, flows[..|flows| - 1])
    requires var f := flows[|flows| - 1];
      r.edges == g1.edges[PairOf(f) := MergeEdge(EdgeOr(g1, PairOf(f)), EdgeAttrs(PotentialFlow, None, Some(FlowAttrsOf(f))))]
    ensures FlowEdgeLast(r, flows)
  {
    var n := |flows| - 1;
    var f := flows[n];
    forall i | LastOnPair(flows, i)
      ensures PairOf(flows[i]) in r.edges && r.edges[PairOf(flows[i])].flow == Some(FlowAttrsOf(flows[i]))
    {
      if i < n {
        LastOnPairSplit(flows, i);
        assert r.edges[PairOf(flows[i])] == g1.edges[PairOf(flows[i])];
      } else {
        assert r.edges[PairOf(f)].flow == Some(FlowAttrsOf(f));
      }
    }
  }

  lemma OnSomeFlowSplit(flows: seq<Flow>)
    requires |flows| > 0
    ensures forall e :: OnSomeFlow(flows, e) <==> OnSomeFlow(flows[..|flows| - 1], e) || e == PairOf(flows[|flows| - 1])
  {
    var n := |flows| - 1;
    var front := flows[..n];
    forall e | OnSomeFlow(flows, e) && e != PairOf(flows[n]) ensures OnSomeFlow(front, e) {
      var i :| 0 <= i < |flows| && PairOf(flows[i]) == e;
      assert PairOf(front[i]) == e;
    }
    forall e | OnSomeFlow(front, e) ensures OnSomeFlow(flows, e) {
      var i :| 0 <= i < n && PairOf(front[i]) == e;
      assert PairOf(flows[i]) == e;
    }
    assert OnSomeFlow(flows, PairOf(flows[n]));
  }

  lemma LastOnPairSplit(flows: seq<Flow>, i: int)
    requires LastOnPair(flows, i) && i < |flows| - 1
    ensures LastOnPair(flows[..|flows| - 1], i) && flows[..|flows| - 1][i] == flows[i]
    ensures PairOf(flows[i]) != PairOf(flows[|flows| - 1])
  {
  }

  /** The node effect of `add_flow_edges` extends by one flow. */
  lemma FlowNodesStep(g: Graph, g1: Graph, r: Graph, flows: seq<Flow>)
    requires |flows| > 0
    requires FlowNodes(g, g1, flows[..|flows| - 1])
    requires Endpoints(g, flows[..|flows| - 1]) ==> g1.nodes == g.nodes && g1.order == g.order
    requires var f := flows[|flows| - 1];
      && r.nodes.Keys == g1.nodes.Keys + {f.sourceTool, f.targetTool}
      && (forall x :: x in g1.nodes ==> r.nodes[x] == g1.nodes[x])
      && (forall x :: x in r.nodes && x !in g1.nodes ==> r.nodes[x] == NoAttrs)
      && g1.order <= r.order
      && (f.sourceTool in g1.nodes && f.targetTool in g1.nodes ==> r.order == g1.order && r.nodes == g1.nodes)
    ensures FlowNodes(g, r, flows)
    ensures Endpoints(g, flows) ==> r.nodes == g.nodes && r.order == g.order
  {
    var n := |flows| - 1;
    var front, f := flows[..n], flows[n];
    assert forall i :: 0 <= i < n ==> front[i] == flows[i];
    assert forall x :: EndpointOfSome(flows, x) <==> EndpointOfSome(front, x) || x == f.sourceTool || x == f.targetTool by {
      forall x | EndpointOfSome(flows, x) && x != f.sourceTool && x != f.targetTool ensures EndpointOfSome(front, x) {
        var i :| 0 <= i < |flows| && (flows[i].sourceTool == x || flows[i].targetTool == x);
        assert i < n;
      }
      forall x | EndpointOfSome(front, x) ensures EndpointOfSome(flows, x) {
        var i :| 0 <= i < n && (front[i].sourceTool == x || front[i].targetTool == x);
        assert flows[i] == front[i];
      }
      assert flows[n] == f;
    }
    PrefixTransitive(g.order, g1.order, r.order);
    if Endpoints(g, flows) {
      assert Endpoints(g, front);
    }
  }


  /* ------------------------------------------------------------------ */
  /* Properties of detection and of writing the flows                   */
  /* ------------------------------------------------------------------ */

  /** Every pair some flow joins has a last flow on it. */
  lemma {:induction false} LastOnSomePair(flows: seq<Flow>, e: (string, string))
    requires OnSomeFlow(flows, e)
    ensures exists i :: LastOnPair(flows, i) && PairOf(flows[i]) == e
    decreases |flows|
  {
    var n := |flows| - 1;
    if PairOf(flows[n]) == e {
      assert LastOnPair(flows, n);
    } else {
      var k :| 0 <= k < |flows| && PairOf(flows[k]) == e;
      var front := flows[..n];
      assert PairOf(front[k]) == e;
      LastOnSomePair(front, e);
      var i :| LastOnPair(front, i) && PairOf(front[i]) == e;
      LastOnPairExtend(flows, i);
    }
  }

  lemma LastOnPairExtend(flows: seq<Flow>, i: int)
    requires |flows| > 0 && LastOnPair(flows[..|flows| - 1], i)
    requires PairOf(flows[i]) != PairOf(flows[|flows| - 1])
    ensures LastOnPair(flows, i)
  {
    var n := |flows| - 1;
    forall j | i < j < |flows| ensures PairOf(flows[j]) != PairOf(flows[i]) {
      if j < n {
        assert flows[j] == flows[..n][j];
      }
    }
  }

  /** With exact flows listed first, a pair that has a fuzzy flow ends up
      with fuzzy attributes on its edge: the last flow written on it is a
      fuzzy one. */
  lemma FuzzyFlowWinsEdge(g: Graph, flows: seq<Flow>, k: int)
    requires WellFormed(g) && ExactFirst(flows)
    requires 0 <= k < |flows| && flows[k].matchType == Fuzzy
    ensures var r := AddFlowEdges(g, flows);
      && PairOf(flows[k]) in r.edges && r.edges[PairOf(flows[k])].flow.Some?
      && r.edges[PairOf(flows[k])].flow.value.matchType == Fuzzy
  {
    assert OnSomeFlow(flows, PairOf(flows[k]));
    LastOnSomePair(flows, PairOf(flows[k]));
    var i :| LastOnPair(flows, i) && PairOf(flows[i]) == PairOf(flows[k]);
    assert k <= i;
  }

  /** Writing the same flows twice is writing them once: the second pass
      finds every endpoint present and every edge already carrying the
      attributes it sets. */
  lemma AddFlowEdgesIdempotent(g: Graph, flows: seq<Flow>)
    requires WellFormed(g)
    ensures AddFlowEdges(AddFlowEdges(g, flows), flows) == AddFlowEdges(g, flows)
  {
    var r1 := AddFlowEdges(g, flows);
    var r2 := AddFlowEdges(r1, flows);
    EndpointsWritten(g, r1, flows);
    EdgesWrittenTwice(g, r1, r2, flows);
  }

  /** After writing, every endpoint is a node. */
  lemma EndpointsWritten(g: Graph, r: Graph, flows: seq<Flow>)
    requires FlowNodes(g, r, flows)
    ensures Endpoints(r, flows)
  {
    forall i | 0 <= i < |flows|
      ensures flows[i].sourceTool in r.nodes && flows[i].targetTool in r.nodes
    {
      assert EndpointOfSome(flows, flows[i].sourceTool);
      assert EndpointOfSome(flows, flows[i].targetTool);
    }
  }

  /** A second write of the same flows leaves the edges as they are. */
  lemma EdgesWrittenTwice(g: Graph, r1: Graph, r2: Graph, flows: seq<Flow>)
    requires FlowEdges(g, r1, flows) && FlowEdges(r1, r2, flows)
    ensures r2.edges == r1.edges
  {
    forall e | e in r1.edges
      ensures r2.edges[e] == r1.edges[e]
    {
      if OnSomeFlow(flows, e) {
        LastOnSomePair(flows, e);
        var i :| LastOnPair(flows, i) && PairOf(flows[i]) == e;
      }
    }
  }

  /** Parameter edges (`requires_input`, `produces_output`) never point at
      a tool node. `build_from_records` keeps to this unless a parameter
      path equals a tool id. */
  ghost predicate ParamEdgesToParams(g: Graph) {
    forall e :: e in g.edges && g.edges[e].edgeType != PotentialFlow ==> !IsTool(g, e.1)
  }

  /** Flows join tool nodes. */
  predicate BetweenTools(g: Graph, flows: seq<Flow>) {
    forall i :: 0 <= i < |flows| ==> IsTool(g, flows[i].sourceTool) && IsTool(g, flows[i].targetTool)
  }

  /** Writing flows between tools changes no tool's parameters, so a second
      detection on the written graph finds exactly the same flows. */
  lemma DetectionStableUnderAddFlowEdges(d: Detector, g: Graph, flows: seq<Flow>)
    requires WellFormed(g)
    requires ParamEdgesToParams(g)
    requires BetweenTools(g, flows)
    ensures DetectableFlows(d, AddFlowEdges(g, flows)) == DetectableFlows(d, g)
  {
    var r := AddFlowEdges(g, flows);
    assert Endpoints(g, flows);
    ParamsKept(g, r, flows);
    SameParamsSameFlows(d, g, r);
  }

  /** Writing flows between tools keeps every parameter edge and adds none. */
  lemma ParamsKept(g: Graph, r: Graph, flows: seq<Flow>)
    requires ParamEdgesToParams(g)
    requires BetweenTools(g, flows)
    requires FlowEdges(g, r, flows)
    ensures forall t :: OutputParams(r, t) == OutputParams(g, t) && InputParams(r, t) == InputParams(g, t)
  {
    forall t, p
      ensures EdgeTypeAt(r, (t, p)) == Some(ProducesOutput) <==> EdgeTypeAt(g, (t, p)) == Some(ProducesOutput)
      ensures EdgeTypeAt(r, (t, p)) == Some(RequiresInput) <==> EdgeTypeAt(g, (t, p)) == Some(RequiresInput)
    {
      if OnSomeFlow(flows, (t, p)) {
        var i :| 0 <= i < |flows| && PairOf(flows[i]) == (t, p);
        assert IsTool(g, p);
      }
    }
    forall t ensures OutputParams(r, t) == OutputParams(g, t) && InputParams(r, t) == InputParams(g, t) {
    }
  }

  /** Detection reads only the node types and the tools' parameters. */
  lemma SameParamsSameFlows(d: Detector, g: Graph, r: Graph)
    requires r.nodes == g.nodes
    requires forall t :: OutputParams(r, t) == OutputParams(g, t) && InputParams(r, t) == InputParams(g, t)
    ensures DetectableFlows(d, r) == DetectableFlows(d, g)
  {
    forall f ensures f in DetectableFlows(d, r) <==> f in DetectableFlows(d, g) {
      assert PairFlows(d, r, f.sourceTool, f.targetTool) == PairFlows(d, g, f.sourceTool, f.targetTool);
    }
  }

  /** An exact flow between two distinct tools is reported exactly when
      the source produces the name and the target requires it. */
  lemma ExactFlowIff(d: Detector, g: Graph, s: string, t: string, p: string)
    requires IsTool(g, s) && IsTool(g, t) && s != t
    ensures Flow(s, t, p, 1.0, Exact) in DetectableFlows(d, g) <==>
      (EdgeTypeAt(g, (s, p)) == Some(ProducesOutput) && EdgeTypeAt(g, (t, p)) == Some(RequiresInput))
  {
  }

  /** With fuzzy matching off (the default), every flow is an exact one of
      confidence 1.0 on a name the source produces and the target requires. */
  lemma FuzzyOffAllExact(d: Detector, g: Graph)
    requires !d.enableFuzzy
    ensures forall f :: f in DetectableFlows(d, g) ==>
      && f.matchType == Exact && f.confidence == 1.0
      && EdgeTypeAt(g, (f.sourceTool, f.matchingParam)) == Some(ProducesOutput)
      && EdgeTypeAt(g, (f.targetTool, f.matchingParam)) == Some(RequiresInput)
  {
  }

  /** A detector built with the constructor's defaults reports exact
      flows only, each on a name the source produces and the target requires. */
  lemma DefaultDetectsExactOnly(ratio: Ratio, g: Graph)
    ensures var d := DefaultDetector(ratio);
      && d.fuzzyThreshold == 0.8
      && forall f :: f in DetectableFlows(d, g) ==>
           && f.matchType == Exact && f.confidence == 1.0
           && EdgeTypeAt(g, (f.sourceTool, f.matchingParam)) == Some(ProducesOutput)
           && EdgeTypeAt(g, (f.targetTool, f.matchingParam)) == Some(RequiresInput)
  {
    FuzzyOffAllExact(DefaultDetector(ratio), g);
  }

  /** A fuzzy flow joins a produced and a required name that do not match
      exactly, is named `{out}~{in}` and scores at least the threshold. */
  lemma FuzzyFlowShape(d: Detector, g: Graph, f: Flow)
    requires f in DetectableFlows(d, g) && f.matchType == Fuzzy
    ensures d.enableFuzzy
    ensures exists o, i ::
      && EdgeTypeAt(g, (f.sourceTool, o)) == Some(ProducesOutput)
      && EdgeTypeAt(g, (f.targetTool, i)) == Some(RequiresInput)
      && o !in InputParams(g, f.targetTool) && i !in OutputParams(g, f.sourceTool)
      && f.matchingParam == FuzzyName(o, i) && f.confidence == Similarity(d, o, i) >= d.fuzzyThreshold
  {
    var m := Match(f.matchingParam, f.confidence, f.matchType);
    assert m in FindMatchingParams(d, OutputParams(g, f.sourceTool), InputParams(g, f.targetTool));
  }

  /** Turning fuzzy matching on or off, or changing its threshold or ratio,
      leaves the exact flows as they are. */
  lemma ExactFlowsIndependentOfFuzzy(d: Detector, d': Detector, g: Graph)
    ensures forall f: Flow :: f.matchType == Exact ==> (f in DetectableFlows(d, g) <==> f in DetectableFlows(d', g))
  {
    forall f: Flow | f.matchType == Exact
      ensures f in DetectableFlows(d, g) <==> f in DetectableFlows(d', g)
    {
      var outs, ins := OutputParams(g, f.sourceTool), InputParams(g, f.targetTool);
      var m := Match(f.matchingParam, f.confidence, f.matchType);
      assert m in FindMatchingParams(d, outs, ins) <==> m in FindMatchingParams(d', outs, ins);
    }
  }

  /** A graph without parameter edges (the empty graph, or tools with no
      parameters) has no flows, however many tools it holds. */
  lemma NoParamEdgesNoFlows(d: Detector, g: Graph)
    requires forall e :: e in g.edges ==> g.edges[e].edgeType == PotentialFlow
    ensures DetectableFlows(d, g) == {}
  {
  }

  /** Two tools and one parameter: `s` produces `p` and `t` requires it. */
  function SharedGraph(s: string, t: string, p: string): Graph {
    var tool := NodeAttrs(Some(Tool), None, None);
    Graph([s, t, p],
      map[s := tool, t := tool, p := NodeAttrs(Some(OutputParam), None, Some(p))],
      map[(s, p) := EdgeAttrs(ProducesOutput, Some(p), None), (t, p) := EdgeAttrs(RequiresInput, Some(p), None)])
  }

  /** The one flow of that graph runs from `s` to `t` on `p`, whatever the
      fuzzy settings: nothing is left over for the fuzzy phase, and `t`
      produces nothing `s` could require. */
  lemma SharedParameterOneFlow(d: Detector, s: string, t: string, p: string)
    requires s != t && s != p && t != p
    ensures DetectableFlows(d, SharedGraph(s, t, p)) == {Flow(s, t, p, 1.0, Exact)}
  {
    SharedGraphParams(s, t, p);
    OneSharedName(d, SharedGraph(s, t, p), s, t, p);
  }

  lemma SharedGraphParams(s: string, t: string, p: string)
    requires s != t && s != p && t != p
    ensures var g := SharedGraph(s, t, p);
      && (forall x :: IsTool(g, x) <==> x == s || x == t)
      && OutputParams(g, s) == {p} && InputParams(g, t) == {p} && OutputParams(g, t) == {}
  {
    var g := SharedGraph(s, t, p);
    assert forall x :: EdgeTypeAt(g, (s, x)) == Some(ProducesOutput) <==> x == p;
    assert forall x :: EdgeTypeAt(g, (t, x)) == Some(RequiresInput) <==> x == p;
    assert forall x :: EdgeTypeAt(g, (t, x)) != Some(ProducesOutput);
  }

  /** Two tools, one name the first produces and the second requires, and
      nothing the second produces: one exact flow. */
  lemma OneSharedName(d: Detector, g: Graph, s: string, t: string, p: string)
    requires s != t
    requires forall x :: IsTool(g, x) <==> x == s || x == t
    requires OutputParams(g, s) == {p} && InputParams(g, t) == {p} && OutputParams(g, t) == {}
    ensures DetectableFlows(d, g) == {Flow(s, t, p, 1.0, Exact)}
  {
    var ms := FindMatchingParams(d, {p}, {p});
    assert ms == {Match(p, 1.0, Exact)};
    forall f | f in DetectableFlows(d, g) ensures f == Flow(s, t, p, 1.0, Exact) {
      assert f.sourceTool == s;
    }
  }
}
