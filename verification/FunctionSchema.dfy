/** internal/grok/function_schema.go: the root of a function's parameter schema is rewritten so that
    it says `"type": "object"` itself.

    The meaning of a schema for one object instance follows sections 7.7, 10.2.1 and 11.3 of JSON
    Schema Core 2020-12 and section 6.1.1 of JSON Schema Validation 2020-12: every keyword passes or
    fails, and a schema that passes says which properties it has evaluated, for
    `unevaluatedProperties` to see. */
module FunctionSchema {
  import opened Text

  datatype Value = Str(text: string) | List(items: seq<Value>) | Object(fields: Schema) | Other(content: int)

  type Schema = map<string, Value>

  // ----- meaning -----

  datatype Outcome = Fails | Passes(evaluated: set<string>)

  /** What the keywords that the rewrite does not know do with the instance at hand.  `siblings`
      covers all of them together, since some look at each other. */
  datatype Dialect = Dialect(
    siblings: Schema -> Outcome,
    malformed: (string, Value) -> Outcome,
    unevaluated: (Value, set<string>) -> Outcome,
    bare: Value -> Outcome)

  /** Nothing asked, nothing evaluated. */
  predicate Lawful(d: Dialect) { d.siblings(map[]) == Passes({}) }

  function And(a: Outcome, b: Outcome): Outcome {
    if a.Fails? || b.Fails? then Fails else Passes(a.evaluated + b.evaluated)
  }

  function AllOf(outcomes: seq<Outcome>): Outcome {
    if outcomes == [] then Passes({}) else And(AllOf(outcomes[..|outcomes| - 1]), outcomes[|outcomes| - 1])
  }

  function Passing(outcomes: seq<Outcome>): nat {
    if outcomes == [] then 0
    else Passing(outcomes[..|outcomes| - 1]) + if outcomes[|outcomes| - 1].Passes? then 1 else 0
  }

  function Union(outcomes: seq<Outcome>): set<string> {
    if outcomes == [] then {}
    else Union(outcomes[..|outcomes| - 1]) + if outcomes[|outcomes| - 1].Passes? then outcomes[|outcomes| - 1].evaluated else {}
  }

  function AnyOf(outcomes: seq<Outcome>): Outcome { if Passing(outcomes) > 0 then Passes(Union(outcomes)) else Fails }

  function OneOf(outcomes: seq<Outcome>): Outcome { if Passing(outcomes) == 1 then Passes(Union(outcomes)) else Fails }

  /** `type`, for an instance that is an object. */
  function TypeOf(v: Value, d: Dialect): Outcome {
    match v
    case Str(s) => if s == "object" then Passes({}) else Fails
    case List(kinds) => if Str("object") in kinds then Passes({}) else Fails
    case _ => d.malformed("type", v)
  }

  const KNOWN := {"type", "allOf", "anyOf", "oneOf", "unevaluatedProperties"}

  /** The outcomes of the branches under a combinator, if they are a list. */
  type Branches = Option<seq<Outcome>>

  function Combinator(f: Schema, key: string, branches: Branches, law: seq<Outcome> -> Outcome, d: Dialect): Outcome {
    if key !in f then Passes({}) else if branches.Some? then law(branches.value) else d.malformed(key, f[key])
  }

  function Combined(f: Schema, all: Branches, any: Branches, one: Branches, d: Dialect): Outcome {
    And(And(if "type" in f then TypeOf(f["type"], d) else Passes({}), d.siblings(f - KNOWN)),
        And(Combinator(f, "allOf", all, AllOf, d),
            And(Combinator(f, "anyOf", any, AnyOf, d), Combinator(f, "oneOf", one, OneOf, d))))
  }

  /** `unevaluatedProperties` comes last. */
  function Finished(f: Schema, o: Outcome, d: Dialect): Outcome {
    if o.Passes? && "unevaluatedProperties" in f then And(o, d.unevaluated(f["unevaluatedProperties"], o.evaluated)) else o
  }

  function Eval(v: Value, d: Dialect): Outcome
    decreases v
  {
    if v.Object? then
      var f := v.fields;
      var all := if "allOf" in f && f["allOf"].List? then
          Some(seq(|f["allOf"].items|, i requires 0 <= i < |f["allOf"].items| => Eval(f["allOf"].items[i], d))) else None;
      var any := if "anyOf" in f && f["anyOf"].List? then
          Some(seq(|f["anyOf"].items|, i requires 0 <= i < |f["anyOf"].items| => Eval(f["anyOf"].items[i], d))) else None;
      var one := if "oneOf" in f && f["oneOf"].List? then
          Some(seq(|f["oneOf"].items|, i requires 0 <= i < |f["oneOf"].items| => Eval(f["oneOf"].items[i], d))) else None;
      Finished(f, Combined(f, all, any, one, d), d)
    else d.bare(v)
  }

  function EvalAll(items: seq<Value>, d: Dialect): seq<Outcome> {
    seq(|items|, i requires 0 <= i < |items| => Eval(items[i], d))
  }

  function Listed(f: Schema, key: string, d: Dialect): Branches {
    if key in f && f[key].List? then Some(EvalAll(f[key].items, d)) else None
  }

  lemma EvalIs(f: Schema, d: Dialect)
    ensures Eval(Object(f), d)
            == Finished(f, Combined(f, Listed(f, "allOf", d), Listed(f, "anyOf", d), Listed(f, "oneOf", d), d), d)
  {
  }

  // ----- the rewrite -----

  /** `nil` for an absent key, as a Go map read gives it. */
  function Kind(v: Value): Option<Value> { if v.Object? && "type" in v.fields then Some(v.fields["type"]) else None }

  predicate ObjectOrNull(k: Option<Value>) { k == Some(Str("object")) || k == Some(Str("null")) }

  predicate ObjectKinds(kinds: seq<Value>) {
    kinds != [] && Str("object") in kinds && forall i :: 0 <= i < |kinds| ==> ObjectOrNull(Some(kinds[i]))
  }

  predicate ObjectBranches(v: Value) {
    && v.List? && v.items != []
    && (forall i :: 0 <= i < |v.items| ==> v.items[i].Object? && ObjectOrNull(Kind(v.items[i])))
    && (exists i :: 0 <= i < |v.items| && Kind(v.items[i]) == Some(Str("object")))
  }

  predicate ObjectRoot(f: Schema) {
    if "type" in f then f["type"] == Str("object") || (f["type"].List? && ObjectKinds(f["type"].items))
    else ("anyOf" in f && ObjectBranches(f["anyOf"])) || ("oneOf" in f && ObjectBranches(f["oneOf"]))
  }

  function Wrapped(f: Schema, key: string): seq<Value> { if key in f then [Object(map[key := f[key]])] else [] }

  function Conjuncts(f: Schema): seq<Value> {
    (if "allOf" in f && f["allOf"].List? then f["allOf"].items else []) + Wrapped(f, "anyOf") + Wrapped(f, "oneOf")
  }

  function Rewritten(f: Schema): Schema {
    var out := f["type" := Str("object")] - {"anyOf", "oneOf"};
    if Conjuncts(f) != [] then out["allOf" := List(Conjuncts(f))] else out
  }

  predicate Applies(f: Schema) { ObjectRoot(f) && ("allOf" in f ==> f["allOf"].List?) }

  /** The clone of an empty map is nil, which is printed as `null`. */
  function Normalized(f: Schema): Option<Schema> {
    if f == map[] then None else if Applies(f) then Some(Rewritten(f)) else Some(f)
  }

  // ----- which schemas are rewritten -----

  /** Every branch is typed an object or null, and some branch an object. */
  ghost predicate UnionOfObjects(v: Value) {
    && v.List?
    && (forall b :: b in v.items ==> b.Object? && "type" in b.fields && b.fields["type"] in {Str("object"), Str("null")})
    && (exists b :: b in v.items && b.Object? && "type" in b.fields && b.fields["type"] == Str("object"))
  }

  /** The schema allows an object and nothing else but null, and says so by its type, or without one by a
      union; and nothing else stands where the conjuncts must go. */
  ghost predicate SaysObject(f: Schema) {
    && (if "type" in f then
          || f["type"] == Str("object")
          || (&& f["type"].List? && Str("object") in f["type"].items
              && forall k :: k in f["type"].items ==> k in {Str("object"), Str("null")})
        else exists key :: key in {"anyOf", "oneOf"} && key in f && UnionOfObjects(f[key]))
    && ("allOf" !in f || f["allOf"].List?)
  }

  lemma BranchesAreUnion(v: Value)
    ensures ObjectBranches(v) <==> UnionOfObjects(v)
  {
    if ObjectBranches(v) {
      var i :| 0 <= i < |v.items| && Kind(v.items[i]) == Some(Str("object"));
      assert v.items[i] in v.items;
    }
    if UnionOfObjects(v) {
      var b :| b in v.items && b.Object? && "type" in b.fields && b.fields["type"] == Str("object");
      var i :| 0 <= i < |v.items| && v.items[i] == b;
      assert Kind(v.items[i]) == Some(Str("object"));
      forall j | 0 <= j < |v.items| ensures v.items[j].Object? && ObjectOrNull(Kind(v.items[j])) {
        assert v.items[j] in v.items;
      }
    }
  }

  lemma KindsAreNames(kinds: seq<Value>)
    ensures ObjectKinds(kinds)
      <==> Str("object") in kinds && forall k :: k in kinds ==> k in {Str("object"), Str("null")}
  {
    if forall k :: k in kinds ==> k in {Str("object"), Str("null")} {
      forall i | 0 <= i < |kinds| ensures ObjectOrNull(Some(kinds[i])) { assert kinds[i] in kinds; }
    }
  }

  /** Those are the schemas that the scans find. */
  lemma AppliesIff(f: Schema)
    ensures Applies(f) <==> SaysObject(f)
  {
    if "type" in f {
      if f["type"].List? { KindsAreNames(f["type"].items); }
    } else {
      if "anyOf" in f { BranchesAreUnion(f["anyOf"]); }
      if "oneOf" in f { BranchesAreUnion(f["oneOf"]); }
      assert "anyOf" in {"anyOf", "oneOf"} && "oneOf" in {"anyOf", "oneOf"};
    }
  }

  // ----- the rewrite keeps the meaning -----

  lemma AndAssoc(a: Outcome, b: Outcome, c: Outcome)
    ensures And(And(a, b), c) == And(a, And(b, c))
  {
    if a.Passes? && b.Passes? && c.Passes? {
      assert a.evaluated + b.evaluated + c.evaluated == a.evaluated + (b.evaluated + c.evaluated);
    }
  }

  lemma AndUnit(a: Outcome)
    ensures And(Passes({}), a) == a == And(a, Passes({}))
  {
    if a.Passes? { assert {} + a.evaluated == a.evaluated == a.evaluated + {}; }
  }

  lemma {:induction false} AllOfSplit(a: seq<Outcome>, b: seq<Outcome>)
    ensures AllOf(a + b) == And(AllOf(a), AllOf(b))
    decreases |b|
  {
    if b == [] {
      assert a + b == a;
      AndUnit(AllOf(a));
    } else {
      var b', o := b[..|b| - 1], b[|b| - 1];
      assert (a + b)[..|a + b| - 1] == a + b' && (a + b)[|a + b| - 1] == o;
      AllOfSplit(a, b');
      AndAssoc(AllOf(a), AllOf(b'), o);
    }
  }

  /** A combinator means the same as the only keyword of a conjunct. */
  lemma WrapperMeans(f: Schema, key: string, d: Dialect)
    requires Lawful(d) && (key == "anyOf" || key == "oneOf") && key in f
    ensures Eval(Object(map[key := f[key]]), d)
            == Combinator(f, key, Listed(f, key, d), if key == "anyOf" then AnyOf else OneOf, d)
  {
    var w := map[key := f[key]];
    EvalIs(w, d);
    assert w - KNOWN == map[];
    assert Listed(w, key, d) == Listed(f, key, d);
    var o := Combinator(f, key, Listed(f, key, d), if key == "anyOf" then AnyOf else OneOf, d);
    AndUnit(o);
    AndUnit(Passes({}));
  }

  lemma WrappedMeans(f: Schema, key: string, d: Dialect)
    requires Lawful(d) && (key == "anyOf" || key == "oneOf")
    ensures AllOf(EvalAll(Wrapped(f, key), d)) == Combinator(f, key, Listed(f, key, d), if key == "anyOf" then AnyOf else OneOf, d)
  {
    if key in f {
      WrapperMeans(f, key, d);
      var o := Eval(Object(map[key := f[key]]), d);
      assert EvalAll(Wrapped(f, key), d) == [o] && [o][..0] == [];
      AndUnit(o);
    }
  }

  lemma EvalAllSplit(a: seq<Value>, b: seq<Value>, d: Dialect)
    ensures EvalAll(a + b, d) == EvalAll(a, d) + EvalAll(b, d)
  {
  }

  lemma ConjunctsMean(f: Schema, d: Dialect)
    requires Lawful(d) && ("allOf" in f ==> f["allOf"].List?)
    ensures AllOf(EvalAll(Conjuncts(f), d))
            == And(Combinator(f, "allOf", Listed(f, "allOf", d), AllOf, d),
                   And(Combinator(f, "anyOf", Listed(f, "anyOf", d), AnyOf, d), Combinator(f, "oneOf", Listed(f, "oneOf", d), OneOf, d)))
  {
    var a, b, c := if "allOf" in f then f["allOf"].items else [], Wrapped(f, "anyOf"), Wrapped(f, "oneOf");
    EvalAllSplit(a + b, c, d);
    EvalAllSplit(a, b, d);
    AllOfSplit(EvalAll(a + b, d), EvalAll(c, d));
    AllOfSplit(EvalAll(a, d), EvalAll(b, d));
    WrappedMeans(f, "anyOf", d);
    WrappedMeans(f, "oneOf", d);
    AndAssoc(AllOf(EvalAll(a, d)), AllOf(EvalAll(b, d)), AllOf(EvalAll(c, d)));
  }

  lemma RewrittenListed(f: Schema, d: Dialect)
    requires Lawful(d) && Applies(f)
    ensures var g := Rewritten(f);
            Combinator(g, "allOf", Listed(g, "allOf", d), AllOf, d) == AllOf(EvalAll(Conjuncts(f), d))
  {
    if Conjuncts(f) == [] { assert EvalAll(Conjuncts(f), d) == []; }
  }

  lemma TypeMeans(f: Schema, d: Dialect)
    requires ObjectRoot(f)
    ensures (if "type" in f then TypeOf(f["type"], d) else Passes({})) == Passes({})
    ensures TypeOf(Str("object"), d) == Passes({})
  {
  }

  /** The clone of a schema that asks nothing is not a schema: the only meaning that is lost. */
  lemma NormalizedToolKeepsMeaning(tool: Schema, d: Dialect)
    requires Lawful(d) && "parameters" in tool && tool["parameters"].Object? && tool["parameters"].fields != map[]
    ensures var t := ToolNormalized(tool);
            && t.Keys == tool.Keys && t - {"parameters"} == tool - {"parameters"}
            && Eval(t["parameters"], d) == Eval(tool["parameters"], d)
  {
    NormalizedKeepsMeaning(tool["parameters"].fields, d);
    assert ToolNormalized(tool) - {"parameters"} == tool - {"parameters"};
  }

  /** The rewritten schema accepts the same objects and evaluates the same properties, whatever the
      other keywords mean. */
  lemma RewriteKeepsMeaning(f: Schema, d: Dialect)
    requires Lawful(d) && Applies(f)
    ensures Eval(Object(Rewritten(f)), d) == Eval(Object(f), d)
  {
    var g := Rewritten(f);
    EvalIs(f, d);
    EvalIs(g, d);
    assert g - KNOWN == f - KNOWN;
    TypeMeans(f, d);
    ConjunctsMean(f, d);
    RewrittenListed(f, d);
    AndUnit(Passes({}));
    AndUnit(AllOf(EvalAll(Conjuncts(f), d)));
    assert "unevaluatedProperties" in f <==> "unevaluatedProperties" in g;
  }

  /** The whole function: only the schema that asks nothing is lost. */
  lemma NormalizedKeepsMeaning(f: Schema, d: Dialect)
    requires Lawful(d)
    ensures Normalized(f).Some? <==> f != map[]
    ensures Normalized(f).Some? ==> Eval(Object(Normalized(f).value), d) == Eval(Object(f), d)
  {
    if f != map[] && Applies(f) { RewriteKeepsMeaning(f, d); }
  }

  lemma NormalizedIsIdempotent(f: Schema)
    requires Normalized(f).Some?
    ensures Normalized(Normalized(f).value) == Normalized(f)
  {
    if Applies(f) {
      var g := Rewritten(f);
      assert Conjuncts(g) == Conjuncts(f);
      assert Rewritten(g) == g;
    }
  }

  /** What the upstream checks first is at the root afterwards. */
  lemma RootIsExposed(f: Schema)
    requires f != map[] && Applies(f)
    ensures var g := Normalized(f).value;
            && "type" in g && g["type"] == Str("object") && "anyOf" !in g && "oneOf" !in g
            && g - KNOWN == f - KNOWN
  {
    assert Rewritten(f) - KNOWN == f - KNOWN;
  }

  // ----- the code -----

  /** The scan over a list of type names. */
  method ScanKinds(kinds: seq<Value>) returns (objectRoot: bool)
    requires kinds != []
    ensures objectRoot == ObjectKinds(kinds)
  {
    var hasObject, onlyObjectOrNull := false, true;
    for i := 0 to |kinds|
      invariant hasObject <==> Str("object") in kinds[..i]
      invariant onlyObjectOrNull <==> forall j :: 0 <= j < i ==> ObjectOrNull(Some(kinds[j]))
    {
      hasObject := hasObject || kinds[i] == Str("object");
      onlyObjectOrNull := onlyObjectOrNull && (kinds[i] == Str("object") || kinds[i] == Str("null"));
    }
    assert kinds[..|kinds|] == kinds;
    return hasObject && onlyObjectOrNull;
  }

  /** The scan over the branches of a union. */
  method ScanBranches(branches: Option<Value>) returns (objectRoot: bool)
    ensures objectRoot <==> branches.Some? && ObjectBranches(branches.value)
  {
    var items := if branches.Some? && branches.value.List? then branches.value.items else [];
    var hasObject, onlyObjectOrNull := false, items != [];
    for i := 0 to |items|
      invariant hasObject <==> exists j :: 0 <= j < i && Kind(items[j]) == Some(Str("object"))
      invariant onlyObjectOrNull <==>
        (items != [] && forall j :: 0 <= j < i ==> items[j].Object? && ObjectOrNull(Kind(items[j])))
    {
      var kind := Kind(items[i]);
      hasObject := hasObject || kind == Some(Str("object"));
      onlyObjectOrNull := onlyObjectOrNull && items[i].Object? && (kind == Some(Str("object")) || kind == Some(Str("null")));
    }
    return hasObject && onlyObjectOrNull;
  }

  method NormalizeBuildFunctionSchema(schema: Schema) returns (out: Option<Schema>)
    ensures out == Normalized(schema)
    ensures out == None <==> schema == map[]
    ensures schema != map[] && !SaysObject(schema) ==> out == Some(schema)
    ensures schema != map[] && SaysObject(schema) ==>
      && "type" in out.value && out.value["type"] == Str("object")
      && "anyOf" !in out.value && "oneOf" !in out.value
      && out.value - {"type", "allOf", "anyOf", "oneOf"} == schema - {"type", "allOf", "anyOf", "oneOf"}
  {
    AppliesIff(schema);
    if |schema| == 0 {
      return None;
    }
    var m := schema;
    var objectRoot := "type" in m && m["type"] == Str("object");
    if "type" in m && m["type"].List? && m["type"].items != [] {
      objectRoot := ScanKinds(m["type"].items);
    }
    if "type" !in m {
      var any := ScanBranches(if "anyOf" in m then Some(m["anyOf"]) else None);
      var one := ScanBranches(if "oneOf" in m then Some(m["oneOf"]) else None);
      objectRoot := any || one;
    }
    if !objectRoot || ("allOf" in m && !m["allOf"].List?) {
      return Some(m);
    }
    m := m["type" := Str("object")];
    var conjuncts: seq<Value> := if "allOf" in m then m["allOf"].items else [];
    if "anyOf" in m {
      conjuncts := conjuncts + [Object(map["anyOf" := m["anyOf"]])];
      m := m - {"anyOf"};
    }
    if "oneOf" in m {
      conjuncts := conjuncts + [Object(map["oneOf" := m["oneOf"]])];
      m := m - {"oneOf"};
    }
    assert conjuncts == Conjuncts(schema);
    assert m == schema["type" := Str("object")] - {"anyOf", "oneOf"};
    if conjuncts != [] {
      m := m["allOf" := List(conjuncts)];
    }
    return Some(m);
  }

  // ----- tools -----

  /** A nil map is printed as `null`. */
  const NULL := Other(0)

  function ToolNormalized(tool: Schema): Schema {
    if "type" in tool && tool["type"] == Str("function") && "parameters" in tool && tool["parameters"].Object? then
      var p := Normalized(tool["parameters"].fields);
      tool["parameters" := if p.Some? then Object(p.value) else NULL]
    else tool
  }

  /** `normalizeBuildFunctionTools` edits a copy of the list, tool by tool. */
  method NormalizeBuildFunctionTools(tools: seq<Schema>) returns (out: seq<Schema>)
    ensures |out| == |tools| && forall i :: 0 <= i < |tools| ==> out[i] == ToolNormalized(tools[i])
    ensures forall i :: 0 <= i < |tools| ==>
      var t := tools[i];
      if "type" in t && t["type"] == Str("function") && "parameters" in t && t["parameters"].Object? then
        var p := t["parameters"].fields;
        && out[i].Keys == t.Keys && out[i] - {"parameters"} == t - {"parameters"}
        && out[i]["parameters"] == if p == map[] then NULL else Object(Normalized(p).value)
      else out[i] == t
  {
    out := tools;
    for i := 0 to |tools|
      invariant |out| == |tools|
      invariant forall j :: 0 <= j < |tools| ==> out[j] == if j < i then ToolNormalized(tools[j]) else tools[j]
    {
      var tool := tools[i];
      if "type" !in tool || tool["type"] != Str("function") {
        continue;
      }
      if "parameters" in tool && tool["parameters"].Object? {
        var schema := NormalizeBuildFunctionSchema(tool["parameters"].fields);
        out := out[i := tool["parameters" := if schema.Some? then Object(schema.value) else NULL]];
      }
    }
  }
}
