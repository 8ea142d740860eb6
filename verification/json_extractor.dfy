/**
 * The payload key extractor (src/json_extractor.py): turns the JSON text of
 * an API payload into the ordered list of parameter paths that the graph
 * builder uses as parameter names, plus the leaf flattening, the value type
 * tags and the key union over several payloads.
 *
 * `json.loads` is not modelled: every operation that parses takes the parser
 * as a `Parser` argument, which answers None for text on which `json.loads`
 * raises `JSONDecodeError`.
 */
module JsonExtractor {
  import opened Wrappers

  /** A value as `json.loads` returns it. An object keeps its members in
      declaration order, as a Python dict keeps insertion order; a parser
      standing for `json.loads` gives each member name once (a repeated name
      keeps its first place and its last value). */
  datatype Json =
    | JNull
    | JBool(b: bool)
    | JInt(i: int)
    | JFloat(f: real)
    | JString(s: string)
    | JArray(items: seq<Json>)
    | JObject(members: seq<(string, Json)>)

  /** The stand-in for `json.loads`: None when the text does not parse. */
  type Parser = string -> Option<Json>

  /** `isinstance(value, (dict, list))` */
  predicate IsContainer(j: Json) {
    j.JArray? || j.JObject?
  }

  /* ------------------------------------------------------------------ */
  /* The blank / sentinel check in front of the parser                  */
  /* ------------------------------------------------------------------ */

  /** Python's `str.isspace`, the characters `str.strip()` removes. */
  predicate IsSpace(c: char) {
    var n := c as int;
    n == 0x20 || 0x09 <= n <= 0x0d || 0x1c <= n <= 0x1f || n == 0x85 || n == 0xa0
    || n == 0x1680 || 0x2000 <= n <= 0x200a || n == 0x2028 || n == 0x2029
    || n == 0x202f || n == 0x205f || n == 0x3000
  }

  function StripStart(s: string): (r: string)
    ensures |r| <= |s| && r == s[|s| - |r|..]
    ensures forall k :: 0 <= k < |s| - |r| ==> IsSpace(s[k])
    ensures r == [] || !IsSpace(r[0])
  {
    if |s| > 0 && IsSpace(s[0]) then StripStart(s[1..]) else s
  }

  function StripEnd(s: string): (r: string)
    ensures |r| <= |s| && r == s[..|r|]
    ensures forall k :: |r| <= k < |s| ==> IsSpace(s[k])
    ensures r == [] || !IsSpace(r[|r| - 1])
  {
    if |s| > 0 && IsSpace(s[|s| - 1]) then StripEnd(s[..|s| - 1]) else s
  }

  /** `str.strip()`: the longest slice of `s` that neither starts nor ends
      with white space, found by dropping white space at both ends. */
  function Strip(s: string): (r: string)
    ensures exists i, j :: 0 <= i <= j <= |s| && r == s[i..j]
                           && (forall k :: 0 <= k < i ==> IsSpace(s[k]))
                           && (forall k :: j <= k < |s| ==> IsSpace(s[k]))
    ensures r == [] || (!IsSpace(r[0]) && !IsSpace(r[|r| - 1]))
  {
    var a := StripStart(s);
    var b := StripEnd(a);
    StripBounds(s, a, b);
    b
  }

  lemma StripBounds(s: string, a: string, b: string)
    requires |a| <= |s| && a == s[|s| - |a|..] && forall k :: 0 <= k < |s| - |a| ==> IsSpace(s[k])
    requires |b| <= |a| && b == a[..|b|] && forall k :: |b| <= k < |a| ==> IsSpace(a[k])
    ensures var i, j := |s| - |a|, |s| - |a| + |b|;
      && 0 <= i <= j <= |s| && b == s[i..j]
      && (forall k :: 0 <= k < i ==> IsSpace(s[k]))
      && (forall k :: j <= k < |s| ==> IsSpace(s[k]))
  {
    var i := |s| - |a|;
    forall k | i + |b| <= k < |s| ensures IsSpace(s[k]) {
      assert s[k] == a[k - i];
    }
  }

  /** `not json_str or json_str.strip() in ("", "null", "None")` */
  predicate IsBlank(s: string) {
    s == "" || Strip(s) == "" || Strip(s) == "null" || Strip(s) == "None"
  }

  /* ------------------------------------------------------------------ */
  /* Key extraction                                                     */
  /* ------------------------------------------------------------------ */

  /** `f"{prefix}.{key}" if prefix else key` */
  function FullKey(prefix: string, key: string): string {
    if prefix != "" then prefix + "." + key else key
  }

  /** `f"{prefix}[0]" if prefix else "[0]"` */
  function ArrayPrefix(prefix: string): string {
    if prefix != "" then prefix + "[0]" else "[0]"
  }

  /** `_extract_keys_recursive`: object keys in pre-order; an array
      contributes the keys of its first element, and only when that element
      is an object. */
  function KeysOf(j: Json, prefix: string): seq<string>
    decreases j, 2
  {
    match j
    case JObject(_) => MemberKeys(j, prefix, 0)
    case JArray(items) =>
      if |items| > 0 && items[0].JObject? then KeysOf(items[0], ArrayPrefix(prefix)) else []
    case _ => []
  }

  /** The paths a member value adds after its own path: only dicts and lists
      are descended into. */
  function ChildKeys(v: Json, full: string): seq<string>
    decreases v, 3
  {
    if IsContainer(v) then KeysOf(v, full) else []
  }

  /** The member loop of `_extract_keys_recursive`, from member `i` on. */
  function MemberKeys(j: Json, prefix: string, i: nat): seq<string>
    requires j.JObject? && i <= |j.members|
    decreases j, 0, |j.members| - i
  {
    if i == |j.members| then []
    else
      var full := FullKey(prefix, j.members[i].0);
      [full] + ChildKeys(j.members[i].1, full) + MemberKeys(j, prefix, i + 1)
  }

  /** True of a value from which `_extract_keys_recursive` emits at least one
      path: a non-empty object, or an array whose first element is one. */
  predicate HasKeys(j: Json) {
    || (j.JObject? && |j.members| > 0)
    || (j.JArray? && |j.items| > 0 && j.items[0].JObject? && |j.items[0].members| > 0)
  }

  /** `extract_keys`: blank text, the null sentinels and text on which
      `json.loads` raises `JSONDecodeError` (the parser answers None) all
      give no paths; otherwise the paths of the parsed value. */
  function ExtractKeys(parse: Parser, s: string, prefix: string): (r: seq<string>)
    ensures IsBlank(s) ==> r == []
    ensures (forall k :: 0 <= k < |s| ==> IsSpace(s[k])) ==> r == []
    ensures parse(s).None? ==> r == []
    ensures r == [] <==> IsBlank(s) || parse(s).None? || !HasKeys(parse(s).value)
  {
    if s == "" || Strip(s) in {"", "null", "None"} then []
    else
      match parse(s)
      case None => []
      case Some(obj) => KeysEmptyIff(obj, prefix); KeysOf(obj, prefix)
  }

  lemma KeysEmptyIff(j: Json, prefix: string)
    ensures KeysOf(j, prefix) == [] <==> !HasKeys(j)
  {
    if j.JArray? && |j.items| > 0 && j.items[0].JObject? {
      assert KeysOf(j, prefix) == MemberKeys(j.items[0], ArrayPrefix(prefix), 0);
    }
  }

  /* ------------------------------------------------------------------ */
  /* Flattening, type tags, key union                                   */
  /* ------------------------------------------------------------------ */

  /** What `flatten_json` keeps as a value: anything it does not descend
      into (a dict, or a non-empty list whose first element is a dict). */
  predicate IsLeaf(v: Json) {
    !v.JObject? && !(v.JArray? && |v.items| > 0 && v.items[0].JObject?)
  }

  /** `flatten_json`: leaf paths mapped to their values. Later items win
      over earlier ones with the same path, as in `dict(items)`. */
  function Flatten(obj: Json, parentKey: string): map<string, Json>
    requires obj.JObject?
    decreases obj, 1
  {
    FlattenFrom(obj, parentKey, 0)
  }

  /** The member loop of `flatten_json`, from member `i` on. */
  function FlattenFrom(obj: Json, parentKey: string, i: nat): map<string, Json>
    requires obj.JObject? && i <= |obj.members|
    decreases obj, 0, |obj.members| - i
  {
    if i == |obj.members| then map[]
    else MemberPart(obj, parentKey, i) + FlattenFrom(obj, parentKey, i + 1)
  }

  /** The items one member contributes: its own path and value when the
      value is a leaf, otherwise the flattening of what it descends into. */
  function MemberPart(obj: Json, parentKey: string, i: nat): map<string, Json>
    requires obj.JObject? && i < |obj.members|
    decreases obj, 0, 0
  {
    var key := obj.members[i].0;
    var value := obj.members[i].1;
    var newKey := FullKey(parentKey, key);
    if value.JObject? then Flatten(value, newKey)
    else if value.JArray? && |value.items| > 0 && value.items[0].JObject? then
      Flatten(value.items[0], newKey + "[0]")
    else map[newKey := value]
  }

  /** `infer_type`. Booleans are checked before integers in the source
      because a Python bool is an int; here they are distinct variants. */
  function InferType(value: Json): (r: string)
    ensures r == "null" <==> value.JNull?
    ensures r == "boolean" <==> value.JBool?
    ensures r == "integer" <==> value.JInt?
    ensures r == "number" <==> value.JFloat?
    ensures r == "string" <==> value.JString?
    ensures r == "array" <==> value.JArray?
    ensures r == "object" <==> value.JObject?
  {
    match value
    case JNull => "null"
    case JBool(_) => "boolean"
    case JInt(_) => "integer"
    case JFloat(_) => "number"
    case JString(_) => "string"
    case JArray(_) => "array"
    case JObject(_) => "object"
  }

  /** `get_unique_keys`: the set of every path extracted (with no prefix)
      from any of the strings. */
  function UniqueKeys(parse: Parser, jsonStrings: seq<string>): (r: set<string>)
    ensures forall x :: x in r <==> ExtractedFromSome(PayloadKeys(parse), jsonStrings, x)
  {
    if |jsonStrings| == 0 then {}
    else
      var n := |jsonStrings| - 1;
      var r := UniqueKeys(parse, jsonStrings[..n]) + set k | k in PayloadKeys(parse)(jsonStrings[n]);
      ExtractedFromSomeStep(PayloadKeys(parse), jsonStrings);
      r
  }

  /** `extract_keys` with the default empty prefix, as a function value. */
  function PayloadKeys(parse: Parser): string -> seq<string> {
    s => ExtractKeys(parse, s, "")
  }

  /** Some string of the list yields path `x` under `keys`. */
  predicate ExtractedFromSome(keys: string -> seq<string>, jsonStrings: seq<string>, x: string) {
    exists i :: 0 <= i < |jsonStrings| && x in keys(jsonStrings[i])
  }

  lemma ExtractedFromSomeStep(keys: string -> seq<string>, jsonStrings: seq<string>)
    requires |jsonStrings| > 0
    ensures forall x :: ExtractedFromSome(keys, jsonStrings, x) <==>
      ExtractedFromSome(keys, jsonStrings[..|jsonStrings| - 1], x)
      || x in keys(jsonStrings[|jsonStrings| - 1])
  {
    var n := |jsonStrings| - 1;
    forall x
      ensures ExtractedFromSome(keys, jsonStrings, x) <==>
        ExtractedFromSome(keys, jsonStrings[..n], x) || x in keys(jsonStrings[n])
    {
      if ExtractedFromSome(keys, jsonStrings[..n], x) {
        var i :| 0 <= i < n && x in keys(jsonStrings[..n][i]);
        assert jsonStrings[..n][i] == jsonStrings[i];
      }
    }
  }

  /* ------------------------------------------------------------------ */
  /* Properties of the traversal                                        */
  /* ------------------------------------------------------------------ */

  lemma PrefixOfJoin(a: string, b: string, c: string)
    requires a + b <= c
    ensures a <= c
  {
    assert c[..|a|] == c[..|a + b|][..|a|];
    assert (a + b)[..|a|] == a;
  }

  /** Under a non-empty prefix every path of an object starts with
      `prefix.` and every path of an array with `prefix[0].`. */
  lemma {:induction false} KeysUnderPrefix(j: Json, prefix: string)
    requires prefix != ""
    ensures j.JObject? ==> forall x <- KeysOf(j, prefix) :: prefix + "." <= x
    ensures j.JArray? ==> forall x <- KeysOf(j, prefix) :: prefix + "[0]." <= x
    decreases j, 2
  {
    match j
    case JObject(_) =>
      MemberKeysUnderPrefix(j, prefix, 0);
    case JArray(items) =>
      if |items| > 0 && items[0].JObject? {
        KeysUnderPrefix(items[0], ArrayPrefix(prefix));
        assert ArrayPrefix(prefix) + "." == prefix + "[0].";
      }
    case _ =>
  }

  lemma {:induction false} MemberKeysUnderPrefix(j: Json, prefix: string, i: nat)
    requires prefix != "" && j.JObject? && i <= |j.members|
    ensures forall x <- MemberKeys(j, prefix, i) :: prefix + "." <= x
    decreases j, 0, |j.members| - i
  {
    if i < |j.members| {
      var full := FullKey(prefix, j.members[i].0);
      var v := j.members[i].1;
      assert full == prefix + "." + j.members[i].0;
      assert prefix + "." <= full;
      if IsContainer(v) {
        KeysUnderPrefix(v, full);
        forall x | x in KeysOf(v, full)
          ensures prefix + "." <= x
        {
          if v.JObject? {
            PrefixOfJoin(full, ".", x);
          } else {
            PrefixOfJoin(full, "[0].", x);
          }
          PrefixTransitive(prefix + ".", full, x);
        }
      }
      MemberKeysUnderPrefix(j, prefix, i + 1);
    }
  }

  /** An array contributes only paths under `prefix[0].`, so a top-level
      array of objects yields paths starting with `[0].`. */
  lemma ArrayKeysUnderIndex(j: Json, prefix: string)
    requires j.JArray?
    ensures forall x <- KeysOf(j, prefix) :: ArrayPrefix(prefix) + "." <= x
  {
    if |j.items| > 0 && j.items[0].JObject? {
      assert KeysOf(j, prefix) == MemberKeys(j.items[0], ArrayPrefix(prefix), 0);
      MemberKeysUnderPrefix(j.items[0], ArrayPrefix(prefix), 0);
    }
  }

  /** A flat object (no dict or list values) with n keys yields exactly its
      n full paths, in declaration order. */
  lemma FlatObjectKeys(j: Json, prefix: string)
    requires j.JObject? && forall k :: 0 <= k < |j.members| ==> !IsContainer(j.members[k].1)
    ensures |KeysOf(j, prefix)| == |j.members|
    ensures forall k :: 0 <= k < |j.members| ==> KeysOf(j, prefix)[k] == FullKey(prefix, j.members[k].0)
  {
    FlatMemberKeys(j, prefix, 0);
  }

  lemma {:induction false} FlatMemberKeys(j: Json, prefix: string, i: nat)
    requires j.JObject? && i <= |j.members|
    requires forall k :: 0 <= k < |j.members| ==> !IsContainer(j.members[k].1)
    ensures |MemberKeys(j, prefix, i)| == |j.members| - i
    ensures forall k :: i <= k < |j.members| ==> MemberKeys(j, prefix, i)[k - i] == FullKey(prefix, j.members[k].0)
    decreases |j.members| - i
  {
    if i < |j.members| {
      FlatMemberKeys(j, prefix, i + 1);
    }
  }

  /** Concatenation of a list of path lists. */
  function Concat(ss: seq<seq<string>>): (r: seq<string>)
  {
    if |ss| == 0 then [] else ss[0] + Concat(ss[1..])
  }

  lemma {:induction false} ConcatAppend(a: seq<seq<string>>, b: seq<seq<string>>)
    ensures Concat(a + b) == Concat(a) + Concat(b)
    decreases |a|
  {
    if |a| > 0 {
      assert (a + b)[1..] == a[1..] + b;
      ConcatAppend(a[1..], b);
    } else {
      assert a + b == b;
    }
  }

  /** The block of member `i`: its own path, then its descendants' paths. */
  function Block(j: Json, prefix: string, i: nat): seq<string>
    requires j.JObject? && i < |j.members|
  {
    var full := FullKey(prefix, j.members[i].0);
    [full] + ChildKeys(j.members[i].1, full)
  }

  /** The blocks of all members of `j`, in declaration order. */
  function Blocks(j: Json, prefix: string): seq<seq<string>>
    requires j.JObject?
  {
    seq(|j.members|, k requires j.JObject? && 0 <= k < |j.members| => Block(j, prefix, k))
  }

  /** Pre-order: the paths of an object are its members' blocks laid end to
      end in declaration order, each block being the member's own path
      followed by the paths found below it. */
  lemma PreOrder(j: Json, prefix: string)
    requires j.JObject?
    ensures KeysOf(j, prefix) == Concat(Blocks(j, prefix))
  {
    MemberKeysAsBlocks(j, prefix, 0);
    assert Blocks(j, prefix)[0..] == Blocks(j, prefix);
  }

  lemma {:induction false} MemberKeysAsBlocks(j: Json, prefix: string, i: nat)
    requires j.JObject? && i <= |j.members|
    ensures MemberKeys(j, prefix, i) == Concat(Blocks(j, prefix)[i..])
    decreases |j.members| - i
  {
    if i < |j.members| {
      MemberKeysAsBlocks(j, prefix, i + 1);
      assert Blocks(j, prefix)[i..][1..] == Blocks(j, prefix)[i + 1..];
    }
  }

  /** Where member `i` lands: its own path sits at the offset given by the
      earlier blocks, its descendants follow it directly, and the next
      member starts right after them. */
  lemma OwnPathPrecedesDescendants(j: Json, prefix: string, i: nat)
    requires j.JObject? && i < |j.members|
    ensures var r := KeysOf(j, prefix);
            var o := |Concat(Blocks(j, prefix)[..i])|;
            var full := FullKey(prefix, j.members[i].0);
            var c := ChildKeys(j.members[i].1, full);
            && o + 1 + |c| <= |r|
            && r[o] == full
            && r[o + 1..o + 1 + |c|] == c
            && |Concat(Blocks(j, prefix)[..i + 1])| == o + 1 + |c|
  {
    var bs := Blocks(j, prefix);
    PreOrder(j, prefix);
    var full := FullKey(prefix, j.members[i].0);
    var c := ChildKeys(j.members[i].1, full);
    var a, m, z := Concat(bs[..i]), bs[i], Concat(bs[i + 1..]);
    assert m == [full] + c;
    assert bs == bs[..i] + [bs[i]] + bs[i + 1..];
    ConcatAppend(bs[..i] + [bs[i]], bs[i + 1..]);
    ConcatAppend(bs[..i], [bs[i]]);
    assert Concat([bs[i]]) == m;
    assert bs[..i + 1] == bs[..i] + [bs[i]];
    assert KeysOf(j, prefix) == a + m + z;
    SplitAt(a, m, z, full, c);
  }

  lemma SplitAt(a: seq<string>, m: seq<string>, z: seq<string>, full: string, c: seq<string>)
    requires m == [full] + c
    ensures var r := a + m + z;
      && |a| + 1 + |c| <= |r| && r[|a|] == full && r[|a| + 1..|a| + 1 + |c|] == c
  {
    var r := a + m + z;
    assert r[|a|..|a| + |m|] == m;
  }

  /** `flatten_json` keeps only leaf values, and every path it keeps is one
      that `_extract_keys_recursive` emits for the same object. */
  lemma {:induction false} FlattenLeaves(obj: Json, parentKey: string)
    requires obj.JObject?
    ensures forall x :: x in Flatten(obj, parentKey) ==>
      x in KeysOf(obj, parentKey) && IsLeaf(Flatten(obj, parentKey)[x])
    decreases obj, 1
  {
    FlattenFromLeaves(obj, parentKey, 0);
  }

  lemma {:induction false} FlattenFromLeaves(obj: Json, parentKey: string, i: nat)
    requires obj.JObject? && i <= |obj.members|
    ensures forall x :: x in FlattenFrom(obj, parentKey, i) ==>
      x in MemberKeys(obj, parentKey, i) && IsLeaf(FlattenFrom(obj, parentKey, i)[x])
    decreases obj, 0, |obj.members| - i
  {
    if i < |obj.members| {
      var key := obj.members[i].0;
      var value := obj.members[i].1;
      var newKey := FullKey(parentKey, key);
      FlattenFromLeaves(obj, parentKey, i + 1);
      var keys := MemberKeys(obj, parentKey, i);
      assert keys == [newKey] + ChildKeys(value, newKey) + MemberKeys(obj, parentKey, i + 1);
      if value.JObject? {
        FlattenLeaves(value, newKey);
      } else if value.JArray? && |value.items| > 0 && value.items[0].JObject? {
        FlattenLeaves(value.items[0], newKey + "[0]");
        assert MemberPart(obj, parentKey, i) == Flatten(value.items[0], newKey + "[0]");
        assert ArrayPrefix(newKey) == newKey + "[0]";
      }
    }
  }

  lemma FullKeyInjective(prefix: string, a: string, b: string)
    requires FullKey(prefix, a) == FullKey(prefix, b)
    ensures a == b
  {
    if prefix != "" {
      assert a == FullKey(prefix, a)[|prefix| + 1..];
      assert b == FullKey(prefix, b)[|prefix| + 1..];
    }
  }

  /** For an object whose values are all leaves, `flatten_json` maps exactly
      the members' full paths, each to the value of the last member with
      that key. */
  lemma FlattenLeafObject(obj: Json, parentKey: string)
    requires obj.JObject? && forall k :: 0 <= k < |obj.members| ==> IsLeaf(obj.members[k].1)
    ensures forall x :: x in Flatten(obj, parentKey) <==>
      exists k :: 0 <= k < |obj.members| && x == FullKey(parentKey, obj.members[k].0)
    ensures forall k :: 0 <= k < |obj.members| && LastWithKey(obj.members, k) ==>
      Flatten(obj, parentKey)[FullKey(parentKey, obj.members[k].0)] == obj.members[k].1
  {
    FlattenFromLeafKeys(obj, parentKey, 0);
    FlattenFromLeafValues(obj, parentKey, 0);
  }

  /** Member `k` is the last one carrying its key. */
  predicate LastWithKey(members: seq<(string, Json)>, k: nat)
    requires k < |members|
  {
    forall k' :: k < k' < |members| ==> members[k'].0 != members[k].0
  }

  lemma {:induction false} FlattenFromLeafKeys(obj: Json, parentKey: string, i: nat)
    requires obj.JObject? && i <= |obj.members|
    requires forall k :: 0 <= k < |obj.members| ==> IsLeaf(obj.members[k].1)
    ensures forall x :: x in FlattenFrom(obj, parentKey, i) <==>
      exists k :: i <= k < |obj.members| && x == FullKey(parentKey, obj.members[k].0)
    decreases |obj.members| - i
  {
    if i < |obj.members| {
      FlattenFromLeafKeys(obj, parentKey, i + 1);
      var ms := obj.members;
      var rest := FlattenFrom(obj, parentKey, i + 1);
      var here := FlattenFrom(obj, parentKey, i);
      assert MemberPart(obj, parentKey, i) == map[FullKey(parentKey, ms[i].0) := ms[i].1];
      assert here == map[FullKey(parentKey, ms[i].0) := ms[i].1] + rest;
      forall x
        ensures x in here <==> exists k :: i <= k < |ms| && x == FullKey(parentKey, ms[k].0)
      {
        if x in here {
          if x in rest {
            var k :| i + 1 <= k < |ms| && x == FullKey(parentKey, ms[k].0);
            assert i <= k < |ms| && x == FullKey(parentKey, ms[k].0);
          } else {
            assert i <= i < |ms| && x == FullKey(parentKey, ms[i].0);
          }
        }
        if exists k :: i <= k < |ms| && x == FullKey(parentKey, ms[k].0) {
          var k :| i <= k < |ms| && x == FullKey(parentKey, ms[k].0);
          if k > i {
            assert x in rest;
          }
        }
      }
    }
  }

  lemma FlattenFromLeafValues(obj: Json, parentKey: string, i: nat)
    requires obj.JObject? && i <= |obj.members|
    requires forall k :: 0 <= k < |obj.members| ==> IsLeaf(obj.members[k].1)
    ensures forall k :: i <= k < |obj.members| && LastWithKey(obj.members, k) ==>
      && FullKey(parentKey, obj.members[k].0) in FlattenFrom(obj, parentKey, i)
      && FlattenFrom(obj, parentKey, i)[FullKey(parentKey, obj.members[k].0)] == obj.members[k].1
  {
    forall k | i <= k < |obj.members| && LastWithKey(obj.members, k)
      ensures && FullKey(parentKey, obj.members[k].0) in FlattenFrom(obj, parentKey, i)
              && FlattenFrom(obj, parentKey, i)[FullKey(parentKey, obj.members[k].0)] == obj.members[k].1
    {
      FlattenValueAt(obj, parentKey, i, k);
    }
  }

  /** The path of the last member carrying a key maps to that member's
      value in the flattening of every suffix that contains the member. */
  lemma {:induction false} FlattenValueAt(obj: Json, parentKey: string, i: nat, k: nat)
    requires obj.JObject? && i <= k < |obj.members| && LastWithKey(obj.members, k)
    requires forall k :: 0 <= k < |obj.members| ==> IsLeaf(obj.members[k].1)
    ensures FullKey(parentKey, obj.members[k].0) in FlattenFrom(obj, parentKey, i)
    ensures FlattenFrom(obj, parentKey, i)[FullKey(parentKey, obj.members[k].0)] == obj.members[k].1
    decreases k - i
  {
    var ms := obj.members;
    var x := FullKey(parentKey, ms[k].0);
    var rest := FlattenFrom(obj, parentKey, i + 1);
    assert FlattenFrom(obj, parentKey, i) == map[FullKey(parentKey, ms[i].0) := ms[i].1] + rest;
    if k == i {
      if x in rest {
        FlattenFromLeafKeys(obj, parentKey, i + 1);
        var k' :| i + 1 <= k' < |ms| && x == FullKey(parentKey, ms[k'].0);
        FullKeyInjective(parentKey, ms[k].0, ms[k'].0);
        assert false;
      }
    } else {
      FlattenValueAt(obj, parentKey, i + 1, k);
    }
  }

  /** Member `k` of `obj` leads to the flattened path `x`: `x` is the
      member's own path when `flatten_json` keeps its value, and otherwise
      a path inside the object it descends into. */
  ghost predicate PathVia(obj: Json, parentKey: string, k: int, x: string)
    requires obj.JObject?
    decreases obj, 0
  {
    0 <= k < |obj.members| &&
    var value, newKey := obj.members[k].1, FullKey(parentKey, obj.members[k].0);
    if value.JObject? then PathIn(value, newKey, x)
    else if value.JArray? && |value.items| > 0 && value.items[0].JObject? then PathIn(value.items[0], newKey + "[0]", x)
    else x == newKey
  }

  /** Some member of `obj` leads to `x`. */
  ghost predicate PathIn(obj: Json, parentKey: string, x: string)
    requires obj.JObject?
    decreases obj, 1
  {
    exists k :: 0 <= k < |obj.members| && PathVia(obj, parentKey, k, x)
  }

  /** Following member `k` of `obj` along `x` ends at the value `v`,
      resolving repeated paths inside a nested object as `LastLeafIn` does. */
  ghost predicate LeafVia(obj: Json, parentKey: string, k: int, x: string, v: Json)
    requires obj.JObject?
    decreases obj, 0
  {
    0 <= k < |obj.members| &&
    var value, newKey := obj.members[k].1, FullKey(parentKey, obj.members[k].0);
    if value.JObject? then LastLeafIn(value, newKey, x, v)
    else if value.JArray? && |value.items| > 0 && value.items[0].JObject? then LastLeafIn(value.items[0], newKey + "[0]", x, v)
    else x == newKey && v == value
  }

  /** `v` is the leaf at path `x` of `obj`: some member leads there with
      value `v` and no later member leads to `x` at all (later items win
      in `dict(items)`). */
  ghost predicate LastLeafIn(obj: Json, parentKey: string, x: string, v: Json)
    requires obj.JObject?
    decreases obj, 1
  {
    exists k :: 0 <= k < |obj.members| && LeafVia(obj, parentKey, k, x, v) && NoLaterPath(obj, parentKey, k, x)
  }

  /** No member after `k` leads to `x`. */
  ghost predicate NoLaterPath(obj: Json, parentKey: string, k: int, x: string)
    requires obj.JObject?
  {
    forall k' :: k < k' < |obj.members| ==> !PathVia(obj, parentKey, k', x)
  }

  /** Some member from index `i` on leads to `x`. */
  ghost predicate PathFrom(obj: Json, parentKey: string, i: int, x: string)
    requires obj.JObject?
  {
    exists k :: i <= k < |obj.members| && PathVia(obj, parentKey, k, x)
  }

  /** Some member from index `i` on leads to `x` with value `v`, and no
      later member leads to `x`. */
  ghost predicate LastLeafFrom(obj: Json, parentKey: string, i: int, x: string, v: Json)
    requires obj.JObject?
  {
    exists k :: i <= k < |obj.members| && LeafVia(obj, parentKey, k, x, v) && NoLaterPath(obj, parentKey, k, x)
  }

  /** The keys of `m` are the paths reached from member `i` on. */
  ghost predicate PathsFrom(m: map<string, Json>, obj: Json, parentKey: string, i: int)
    requires obj.JObject?
  {
    forall x :: x in m <==> PathFrom(obj, parentKey, i, x)
  }

  /** `m` maps a path to `v` exactly when `v` is the last leaf reached
      along it from member `i` on. */
  ghost predicate LeavesFrom(m: map<string, Json>, obj: Json, parentKey: string, i: int)
    requires obj.JObject?
  {
    && (forall x :: x in m ==> LastLeafFrom(obj, parentKey, i, x, m[x]))
    && (forall x, v :: LastLeafFrom(obj, parentKey, i, x, v) ==> x in m && m[x] == v)
  }

  /** `flatten_json` keeps exactly the paths its members lead to, and maps
      each to the leaf reached by following it, the last one when several
      members lead to the same path. */
  lemma {:induction false} FlattenIsLastLeaf(obj: Json, parentKey: string)
    requires obj.JObject?
    ensures forall x :: x in Flatten(obj, parentKey) <==> PathIn(obj, parentKey, x)
    ensures forall x :: x in Flatten(obj, parentKey) ==> LastLeafIn(obj, parentKey, x, Flatten(obj, parentKey)[x])
    ensures forall x, v :: LastLeafIn(obj, parentKey, x, v) ==> x in Flatten(obj, parentKey) && Flatten(obj, parentKey)[x] == v
    decreases obj, 1
  {
    FlattenFromIsLastLeaf(obj, parentKey, 0);
    assert forall x :: PathIn(obj, parentKey, x) == PathFrom(obj, parentKey, 0, x);
    assert forall x, v :: LastLeafIn(obj, parentKey, x, v) == LastLeafFrom(obj, parentKey, 0, x, v);
  }

  lemma {:induction false} FlattenFromIsLastLeaf(obj: Json, parentKey: string, i: nat)
    requires obj.JObject? && i <= |obj.members|
    ensures PathsFrom(FlattenFrom(obj, parentKey, i), obj, parentKey, i)
    ensures LeavesFrom(FlattenFrom(obj, parentKey, i), obj, parentKey, i)
    decreases obj, 0, |obj.members| - i
  {
    if i < |obj.members| {
      FlattenFromIsLastLeaf(obj, parentKey, i + 1);
      MemberPartIsLeaf(obj, parentKey, i);
      PathsStep(obj, parentKey, i);
      LeavesStep(obj, parentKey, i);
    }
  }

  /** The part of member `i` holds the paths that member leads to, each with
      the leaf it ends at. */
  lemma {:induction false} MemberPartIsLeaf(obj: Json, parentKey: string, i: nat)
    requires obj.JObject? && i < |obj.members|
    ensures forall x :: x in MemberPart(obj, parentKey, i) <==> PathVia(obj, parentKey, i, x)
    ensures forall x :: x in MemberPart(obj, parentKey, i) ==> LeafVia(obj, parentKey, i, x, MemberPart(obj, parentKey, i)[x])
    ensures forall x, v :: LeafVia(obj, parentKey, i, x, v) ==> x in MemberPart(obj, parentKey, i) && MemberPart(obj, parentKey, i)[x] == v
    decreases obj, 0, 0
  {
    var value, newKey := obj.members[i].1, FullKey(parentKey, obj.members[i].0);
    if value.JObject? {
      FlattenIsLastLeaf(value, newKey);
    } else if value.JArray? && |value.items| > 0 && value.items[0].JObject? {
      FlattenIsLastLeaf(value.items[0], newKey + "[0]");
    }
  }

  lemma PathsStep(obj: Json, parentKey: string, i: nat)
    requires obj.JObject? && i < |obj.members|
    requires forall x :: x in MemberPart(obj, parentKey, i) <==> PathVia(obj, parentKey, i, x)
    requires PathsFrom(FlattenFrom(obj, parentKey, i + 1), obj, parentKey, i + 1)
    ensures PathsFrom(FlattenFrom(obj, parentKey, i), obj, parentKey, i)
  {
    forall x
      ensures x in FlattenFrom(obj, parentKey, i) <==> PathFrom(obj, parentKey, i, x)
    {
      if PathFrom(obj, parentKey, i, x) {
        var k :| i <= k < |obj.members| && PathVia(obj, parentKey, k, x);
        if k > i {
          assert PathFrom(obj, parentKey, i + 1, x);
        }
      }
      if x in FlattenFrom(obj, parentKey, i + 1) {
        var k :| i + 1 <= k < |obj.members| && PathVia(obj, parentKey, k, x);
      }
    }
  }

  lemma LeavesStep(obj: Json, parentKey: string, i: nat)
    requires obj.JObject? && i < |obj.members|
    requires forall x :: x in MemberPart(obj, parentKey, i) ==> LeafVia(obj, parentKey, i, x, MemberPart(obj, parentKey, i)[x])
    requires forall x, v :: LeafVia(obj, parentKey, i, x, v) ==> x in MemberPart(obj, parentKey, i) && MemberPart(obj, parentKey, i)[x] == v
    requires PathsFrom(FlattenFrom(obj, parentKey, i + 1), obj, parentKey, i + 1)
    requires LeavesFrom(FlattenFrom(obj, parentKey, i + 1), obj, parentKey, i + 1)
    ensures LeavesFrom(FlattenFrom(obj, parentKey, i), obj, parentKey, i)
  {
    var part, rest, whole := MemberPart(obj, parentKey, i), FlattenFrom(obj, parentKey, i + 1), FlattenFrom(obj, parentKey, i);
    assert whole == part + rest;
    forall x | x in whole
      ensures LastLeafFrom(obj, parentKey, i, x, whole[x])
    {
      if x in rest {
        var k :| i + 1 <= k < |obj.members| && LeafVia(obj, parentKey, k, x, rest[x]) && NoLaterPath(obj, parentKey, k, x);
      } else {
        assert !PathFrom(obj, parentKey, i + 1, x);
        assert NoLaterPath(obj, parentKey, i, x);
        assert LeafVia(obj, parentKey, i, x, part[x]);
      }
    }
    forall x, v | LastLeafFrom(obj, parentKey, i, x, v)
      ensures x in whole && whole[x] == v
    {
      var k :| i <= k < |obj.members| && LeafVia(obj, parentKey, k, x, v) && NoLaterPath(obj, parentKey, k, x);
      if k > i {
        assert LastLeafFrom(obj, parentKey, i + 1, x, v);
      } else {
        assert x !in rest;
      }
    }
  }

  /* ------------------------------------------------------------------ */
  /* The documented examples                                            */
  /* ------------------------------------------------------------------ */

  lemma ExampleFlat()
    ensures KeysOf(JObject([("a", JInt(1)), ("b", JInt(2))]), "") == ["a", "b"]
  {
  }

  lemma ExampleNested()
    ensures KeysOf(JObject([("user", JObject([("name", JString("x"))]))]), "") == ["user", "user.name"]
  {
    var inner := JObject([("name", JString("x"))]);
    var outer := JObject([("user", inner)]);
    assert KeysOf(inner, "user") == ["user.name"] by {
      assert FullKey("user", "name") == "user.name";
      assert MemberKeys(inner, "user", 1) == [];
    }
    assert MemberKeys(outer, "", 1) == [];
  }

  lemma ExampleArray()
    ensures KeysOf(JObject([("items", JArray([JObject([("id", JInt(1))])]))]), "") == ["items", "items[0].id"]
  {
    var first := JObject([("id", JInt(1))]);
    var outer := JObject([("items", JArray([first]))]);
    assert ArrayPrefix("items") == "items[0]";
    assert KeysOf(first, "items[0]") == ["items[0].id"] by {
      assert FullKey("items[0]", "id") == "items[0].id";
      assert MemberKeys(first, "items[0]", 1) == [];
    }
    assert MemberKeys(outer, "", 1) == [];
  }

  lemma ExampleFlatten()
    ensures Flatten(JObject([("user", JObject([("name", JString("test")), ("age", JInt(30))]))]), "")
            == map["user.name" := JString("test"), "user.age" := JInt(30)]
  {
    var inner := JObject([("name", JString("test")), ("age", JInt(30))]);
    var outer := JObject([("user", inner)]);
    assert FullKey("user", "name") == "user.name";
    assert FullKey("user", "age") == "user.age";
    assert FlattenFrom(inner, "user", 2) == map[];
    assert FlattenFrom(inner, "user", 1) == map["user.age" := JInt(30)];
    assert Flatten(inner, "user") == map["user.name" := JString("test"), "user.age" := JInt(30)];
    assert FlattenFrom(outer, "", 1) == map[];
  }
}
