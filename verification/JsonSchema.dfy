// The closed JSON Schema subset: which schemas are usable, and which payloads one admits.
module JsonSchema {
  datatype Option<+T> = None | Some(value: T)

  // A JSON object keeps its fields in order, as a dictionary does.
  datatype Json =
    | Null
    | Bool(b: bool)
    | Int(i: int)
    | Float(r: real)
    | Str(s: string)
    | Arr(items: seq<Json>)
    | Obj(fields: seq<Field>)

  datatype Field = Field(name: string, value: Json)

  datatype Keyword =
    | Type | Enum | Minimum | Maximum | MinLength | MaxLength | MinItems | MaxItems | Required | AdditionalProperties

  const ANNOTATIONS: set<string> := {"description", "title", "default", "examples", "format"}

  const KEYWORDS: set<string> :=
    {"type", "properties", "required", "additionalProperties", "items", "enum", "minimum", "maximum",
     "minLength", "maxLength", "minItems", "maxItems"} + ANNOTATIONS

  const TYPES: seq<string> := ["object", "array", "string", "number", "integer", "boolean", "null"]

  function Get(node: Json, name: string): (r: Option<Json>)
    requires node.Obj?
    ensures r.Some? <==> Has(node, name)
    ensures r.Some? ==> r.value < node && Field(name, r.value) in node.fields
  {
    Find(node, 0, name)
  }

  function Find(node: Json, from: nat, name: string): (r: Option<Json>)
    requires node.Obj? && from <= |node.fields|
    ensures r.Some? <==> exists k :: from <= k < |node.fields| && node.fields[k].name == name
    ensures r.Some? ==> r.value < node && Field(name, r.value) in node.fields
    decreases |node.fields| - from
  {
    if from == |node.fields| then None
    else if node.fields[from].name == name then
      assert node.fields[from] in node.fields;
      Some(node.fields[from].value)
    else Find(node, from + 1, name)
  }

  predicate Has(node: Json, name: string)
    requires node.Obj?
  {
    exists k :: 0 <= k < |node.fields| && node.fields[k].name == name
  }

  // A keyword whose value is null counts as absent.
  function Given(schema: Json, name: string): (r: Option<Json>)
    requires schema.Obj?
    ensures r.Some? ==> r.value < schema && !r.value.Null?
  {
    var found := Get(schema, name);
    if found == Some(Null) then None else found
  }

  // The object has a field of this name, the first one, with this value, and it is not null.
  ghost predicate Says(node: Json, name: string, value: Json)
    requires node.Obj?
  {
    !value.Null? && exists k :: IsFirst(node, k, name) && node.fields[k].value == value
  }

  ghost predicate IsFirst(node: Json, k: int, name: string)
    requires node.Obj?
  {
    0 <= k < |node.fields| && node.fields[k].name == name && forall j :: 0 <= j < k ==> node.fields[j].name != name
  }

  lemma {:induction false} FindsTheFirst(node: Json, from: nat, name: string) returns (k: nat)
    requires node.Obj? && from <= |node.fields| && Find(node, from, name).Some?
    ensures from <= k < |node.fields| && node.fields[k] == Field(name, Find(node, from, name).value)
    ensures forall j :: from <= j < k ==> node.fields[j].name != name
    decreases |node.fields| - from
  {
    if node.fields[from].name == name {
      k := from;
    } else {
      k := FindsTheFirst(node, from + 1, name);
    }
  }

  // What the code reads for a keyword is what the schema says.
  lemma GivenIsSaid(schema: Json, name: string)
    requires schema.Obj?
    ensures forall value :: Says(schema, name, value) <==> Given(schema, name) == Some(value)
  {
    if Find(schema, 0, name).Some? {
      var k := FindsTheFirst(schema, 0, name);
      assert IsFirst(schema, k, name);
      assert forall j :: IsFirst(schema, j, name) ==> j == k;
    }
    assert forall k :: IsFirst(schema, k, name) ==> Has(schema, name);
  }

  // --- Checking a schema ---

  datatype SchemaStep = Property(index: nat) | Items

  datatype SchemaVerdict = Usable | Unusable(path: seq<SchemaStep>)

  predicate TypeUsable(value: Option<Json>) {
    match value
    case None => true
    case Some(Str(name)) => name in TYPES
    case Some(Arr(items)) => forall k :: 0 <= k < |items| ==> items[k].Str? && items[k].s in TYPES
    case _ => false
  }

  predicate EnumUsable(value: Option<Json>) {
    value.Some? ==> value.value.Arr? && value.value.items != []
  }

  predicate FlagUsable(value: Option<Json>) {
    value.Some? ==> value.value.Bool?
  }

  predicate CountUsable(value: Option<Json>) {
    value.Some? ==> value.value.Int? && value.value.i >= 0
  }

  predicate BoundUsable(value: Option<Json>) {
    value.Some? ==> value.value.Int? || value.value.Float?
  }

  predicate NamesUsable(required: Option<Json>, properties: Option<Json>) {
    required.Some? ==>
      && required.value.Arr?
      && (forall k :: 0 <= k < |required.value.items| ==>
        required.value.items[k].Str? && required.value.items[k].s != "")
      && (properties.Some? && properties.value.Obj? ==>
            forall k :: 0 <= k < |required.value.items| ==> Has(properties.value, required.value.items[k].s))
  }

  // What has to hold of one node of a schema, its sub-schemas apart.
  ghost predicate NodeUsable(schema: Json) {
    && schema.Obj?
    && (forall k :: 0 <= k < |schema.fields| ==> schema.fields[k].name in KEYWORDS)
    && (forall name, v :: Says(schema, name, v) ==> ValueUsable(name, v))
    && (forall v, p :: Says(schema, "required", v) && Says(schema, "properties", p) && v.Arr? && p.Obj? ==>
          AllNamed(v, p))
  }

  // The shape a keyword's value must have.
  predicate ValueUsable(name: string, v: Json) {
    if name == "type" then IsType(v) || (v.Arr? && forall k :: 0 <= k < |v.items| ==> IsType(v.items[k]))
    else if name == "enum" then v.Arr? && v.items != []
    else if name == "additionalProperties" then v.Bool?
    else if name in {"minLength", "maxLength", "minItems", "maxItems"} then v.Int? && v.i >= 0
    else if name in {"minimum", "maximum"} then v.Int? || v.Float?
    else if name == "properties" then v.Obj? && forall k :: 0 <= k < |v.fields| ==> v.fields[k].name != ""
    else if name == "required" then v.Arr? && forall k :: 0 <= k < |v.items| ==> v.items[k].Str? && v.items[k].s != ""
    else true
  }

  predicate AllNamed(required: Json, properties: Json)
    requires required.Arr? && properties.Obj?
  {
    forall k :: 0 <= k < |required.items| && required.items[k].Str? ==>
      exists j :: 0 <= j < |properties.fields| && properties.fields[j].name == required.items[k].s
  }

  predicate IsType(value: Json) {
    value.Str? && value.s in TYPES
  }

  // The same in terms of what the code reads.
  predicate NodeAsGiven(schema: Json) {
    && schema.Obj?
    && (forall k :: 0 <= k < |schema.fields| ==> schema.fields[k].name in KEYWORDS)
    && TypeUsable(Given(schema, "type"))
    && EnumUsable(Given(schema, "enum"))
    && FlagUsable(Given(schema, "additionalProperties"))
    && CountUsable(Given(schema, "minLength")) && CountUsable(Given(schema, "maxLength"))
    && CountUsable(Given(schema, "minItems")) && CountUsable(Given(schema, "maxItems"))
    && BoundUsable(Given(schema, "minimum")) && BoundUsable(Given(schema, "maximum"))
    && PropertiesUsable(Given(schema, "properties"))
    && NamesUsable(Given(schema, "required"), Given(schema, "properties"))
  }

  lemma SaidOfNodes(schema: Json)
    requires schema.Obj?
    ensures forall name, value :: Says(schema, name, value) <==> Given(schema, name) == Some(value)
  {
    forall name, value ensures Says(schema, name, value) <==> Given(schema, name) == Some(value) {
      GivenIsSaid(schema, name);
    }
  }

  predicate GivenUsable(schema: Json, name: string)
    requires schema.Obj?
  {
    Given(schema, name).Some? ==> ValueUsable(name, Given(schema, name).value)
  }

  lemma KeywordsAsGiven(schema: Json)
    requires schema.Obj?
    ensures GivenUsable(schema, "type") <==> TypeUsable(Given(schema, "type"))
    ensures GivenUsable(schema, "enum") <==> EnumUsable(Given(schema, "enum"))
    ensures GivenUsable(schema, "additionalProperties") <==> FlagUsable(Given(schema, "additionalProperties"))
    ensures GivenUsable(schema, "minLength") <==> CountUsable(Given(schema, "minLength"))
    ensures GivenUsable(schema, "maxLength") <==> CountUsable(Given(schema, "maxLength"))
    ensures GivenUsable(schema, "minItems") <==> CountUsable(Given(schema, "minItems"))
    ensures GivenUsable(schema, "maxItems") <==> CountUsable(Given(schema, "maxItems"))
    ensures GivenUsable(schema, "minimum") <==> BoundUsable(Given(schema, "minimum"))
    ensures GivenUsable(schema, "maximum") <==> BoundUsable(Given(schema, "maximum"))
    ensures GivenUsable(schema, "properties") <==> PropertiesUsable(Given(schema, "properties"))
  {
    hide Given;
  }

  lemma RequiredAsGiven(schema: Json)
    requires schema.Obj?
    ensures NamesUsable(Given(schema, "required"), Given(schema, "properties")) <==>
      && GivenUsable(schema, "required")
      && (Given(schema, "required").Some? && Given(schema, "properties").Some? ==>
            var v, p := Given(schema, "required").value, Given(schema, "properties").value;
            v.Arr? && p.Obj? ==> AllNamed(v, p))
  {
    hide Given;
  }

  lemma UsableAsGiven(schema: Json)
    ensures NodeUsable(schema) <==> NodeAsGiven(schema)
  {
    if schema.Obj? {
      SaysUsable(schema);
      KeywordsAsGiven(schema);
      RequiredAsGiven(schema);
      OtherwiseUsable(schema);
      hide Says, Given, GivenUsable, KEYWORDS, ValueUsable, AllNamed, TypeUsable, EnumUsable, FlagUsable, CountUsable,
        BoundUsable, PropertiesUsable, NamesUsable;
    }
  }

  lemma SaysUsable(schema: Json)
    requires schema.Obj?
    ensures (forall name, v :: Says(schema, name, v) ==> ValueUsable(name, v)) <==>
      forall name :: GivenUsable(schema, name)
    ensures (forall v, p :: Says(schema, "required", v) && Says(schema, "properties", p) && v.Arr? && p.Obj? ==>
        AllNamed(v, p)) <==>
      (Given(schema, "required").Some? && Given(schema, "properties").Some? ==>
        var v, p := Given(schema, "required").value, Given(schema, "properties").value;
        v.Arr? && p.Obj? ==> AllNamed(v, p))
  {
    SaidOfNodes(schema);
    hide Says, Given, ValueUsable, AllNamed;
    if name :| !GivenUsable(schema, name) {
      assert Says(schema, name, Given(schema, name).value);
    }
    if name, v :| Says(schema, name, v) && !ValueUsable(name, v) {
      assert !GivenUsable(schema, name);
    }
  }

  // No other keyword's value has to have any shape.
  lemma OtherwiseUsable(schema: Json)
    requires schema.Obj?
    ensures (forall name :: GivenUsable(schema, name)) <==>
      && GivenUsable(schema, "type") && GivenUsable(schema, "enum") && GivenUsable(schema, "additionalProperties")
      && GivenUsable(schema, "minLength") && GivenUsable(schema, "maxLength") && GivenUsable(schema, "minItems")
      && GivenUsable(schema, "maxItems") && GivenUsable(schema, "minimum") && GivenUsable(schema, "maximum")
      && GivenUsable(schema, "properties") && GivenUsable(schema, "required")
  {
    hide Given;
  }

  predicate PropertiesUsable(properties: Option<Json>) {
    properties.Some? ==>
      properties.value.Obj? && forall k :: 0 <= k < |properties.value.fields| ==> properties.value.fields[k].name != ""
  }

  // The sub-schema at a path, as long as the path exists.
  function SchemaAt(schema: Json, path: seq<SchemaStep>): Option<Json>
    decreases |path|
  {
    if path == [] then Some(schema)
    else if !schema.Obj? then None
    else match path[0]
      case Property(k) =>
        var properties := Given(schema, "properties");
        if properties.Some? && properties.value.Obj? && k < |properties.value.fields|
        then SchemaAt(properties.value.fields[k].value, path[1..]) else None
      case Items =>
        var items := Given(schema, "items");
        if items.Some? then SchemaAt(items.value, path[1..]) else None
  }

  // A usable schema: at every depth, only known keywords, each with a value of the right shape.
  ghost predicate UsableSchema(schema: Json) {
    forall path :: SchemaAt(schema, path).Some? ==> NodeUsable(SchemaAt(schema, path).value)
  }

  // The node's own checks before its properties; `required` and `items` come after them.
  predicate NodeUsableBefore(schema: Json) {
    && schema.Obj?
    && (forall k :: 0 <= k < |schema.fields| ==> schema.fields[k].name in KEYWORDS)
    && TypeUsable(Given(schema, "type"))
    && EnumUsable(Given(schema, "enum"))
    && FlagUsable(Given(schema, "additionalProperties"))
    && CountUsable(Given(schema, "minLength")) && CountUsable(Given(schema, "maxLength"))
    && CountUsable(Given(schema, "minItems")) && CountUsable(Given(schema, "maxItems"))
    && BoundUsable(Given(schema, "minimum")) && BoundUsable(Given(schema, "maximum"))
    && (Given(schema, "properties").Some? ==> Given(schema, "properties").value.Obj?)
  }

  function CheckNode(schema: Json, path: seq<SchemaStep>): SchemaVerdict
    decreases schema, 1, 0
  {
    if !NodeUsableBefore(schema) then Unusable(path) else
      var properties := Given(schema, "properties");
      var verdict := if properties.Some? then CheckProperties(schema, properties.value, 0, path) else Usable;
      if verdict.Unusable? then verdict
      else if !NamesUsable(Given(schema, "required"), properties) then Unusable(path)
      else
        var items := Given(schema, "items");
        if items.Some? then CheckNode(items.value, path + [Items]) else Usable
  }

  function CheckProperties(schema: Json, properties: Json, k: nat, path: seq<SchemaStep>): SchemaVerdict
    requires properties < schema && properties.Obj? && k <= |properties.fields|
    decreases schema, 0, |properties.fields| - k
  {
    if k == |properties.fields| then Usable
    else if properties.fields[k].name == "" then Unusable(path)
    else
      var verdict := CheckNode(properties.fields[k].value, path + [Property(k)]);
      if verdict.Unusable? then verdict else CheckProperties(schema, properties, k + 1, path)
  }

  lemma {:induction false} PropertiesPass(schema: Json, properties: Json, k: nat, path: seq<SchemaStep>, j: nat)
    requires properties < schema && properties.Obj? && k <= j < |properties.fields|
    requires CheckProperties(schema, properties, k, path).Usable?
    ensures properties.fields[j].name != "" && CheckNode(properties.fields[j].value, path + [Property(j)]).Usable?
    decreases j - k
  {
    hide NodeUsableBefore, NamesUsable;
    if k < j {
      PropertiesPass(schema, properties, k + 1, path, j);
    }
  }

  lemma {:induction false} CheckPasses(schema: Json, path: seq<SchemaStep>, p: seq<SchemaStep>)
    requires CheckNode(schema, path).Usable? && SchemaAt(schema, p).Some?
    ensures NodeUsable(SchemaAt(schema, p).value)
    decreases |p|
  {
    var properties := Given(schema, "properties");
    if p == [] {
      UsableAsGiven(schema);
      hide NodeUsable;
      if properties.Some? {
        forall k | 0 <= k < |properties.value.fields| ensures properties.value.fields[k].name != "" {
          PropertiesPass(schema, properties.value, 0, path, k);
        }
      }
    } else if p[0].Property? {
      PropertiesPass(schema, properties.value, 0, path, p[0].index);
      CheckPasses(properties.value.fields[p[0].index].value, path + [p[0]], p[1..]);
    } else {
      CheckPasses(Given(schema, "items").value, path + [Items], p[1..]);
    }
  }

  // A rejection names a node that really is unusable.
  lemma {:induction false} CheckFails(schema: Json, path: seq<SchemaStep>) returns (p: seq<SchemaStep>)
    requires CheckNode(schema, path).Unusable?
    ensures CheckNode(schema, path).path == path + p
    ensures SchemaAt(schema, p).Some? && !NodeUsable(SchemaAt(schema, p).value)
    decreases schema, 1, 0
  {
    p := [];
    UsableAsGiven(schema);
    hide NodeUsable;
    if NodeUsableBefore(schema) {
      var properties := Given(schema, "properties");
      if properties.Some? && CheckProperties(schema, properties.value, 0, path).Unusable? {
        p := PropertiesFail(schema, properties.value, 0, path);
      } else if NamesUsable(Given(schema, "required"), properties) {
        var below := CheckFails(Given(schema, "items").value, path + [Items]);
        p := [Items] + below;
        assert p[1..] == below;
      }
    }
  }

  lemma {:induction false} PropertiesFail(schema: Json, properties: Json, k: nat, path: seq<SchemaStep>)
      returns (p: seq<SchemaStep>)
    requires schema.Obj? && Given(schema, "properties") == Some(properties) && properties.Obj? &&
      k <= |properties.fields|
    requires CheckProperties(schema, properties, k, path).Unusable?
    ensures CheckProperties(schema, properties, k, path).path == path + p
    ensures SchemaAt(schema, p).Some? && !NodeUsable(SchemaAt(schema, p).value)
    decreases schema, 0, |properties.fields| - k
  {
    hide Get, Given, KEYWORDS, TypeUsable, EnumUsable, FlagUsable, CountUsable, BoundUsable, NamesUsable;
    if properties.fields[k].name == "" {
      p := [];
      UsableAsGiven(schema);
      assert !PropertiesUsable(Given(schema, "properties"));
    } else if CheckNode(properties.fields[k].value, path + [Property(k)]).Unusable? {
      var below := CheckFails(properties.fields[k].value, path + [Property(k)]);
      p := [Property(k)] + below;
      assert p[1..] == below;
    } else {
      p := PropertiesFail(schema, properties, k + 1, path);
    }
  }

  // The check accepts exactly the schemas usable at every depth.
  lemma {:induction false} CheckIsExact(schema: Json)
    ensures CheckNode(schema, []).Usable? <==> UsableSchema(schema)
  {
    if CheckNode(schema, []).Usable? {
      forall p | SchemaAt(schema, p).Some? ensures NodeUsable(SchemaAt(schema, p).value) {
        CheckPasses(schema, [], p);
      }
    } else {
      var p := CheckFails(schema, []);
    }
  }

  // --- What one keyword asks of a value ---

  // The names of the types a value has; a float has only one, whatever its value.
  function TypeNames(value: Json): set<string> {
    match value
    case Null => {"null"}
    case Bool(_) => {"boolean"}
    case Int(_) => {"integer", "number"}
    case Float(_) => {"number"}
    case Str(_) => {"string"}
    case Arr(_) => {"array"}
    case Obj(_) => {"object"}
  }

  function DeclaredTypes(declared: Json): set<string> {
    match declared
    case Str(name) => {name}
    case Arr(items) => set k | 0 <= k < |items| && items[k].Str? :: items[k].s
    case _ => {}
  }

  predicate IsNumber(value: Json) {
    value.Int? || value.Float?
  }

  function AsReal(value: Json): real
    requires IsNumber(value)
  {
    if value.Int? then value.i as real else value.r
  }

  ghost predicate KeywordHolds(value: Json, schema: Json, keyword: Keyword)
    requires schema.Obj?
  {
    match keyword
    case Type => forall v :: Says(schema, "type", v) ==> TypeNames(value) * DeclaredTypes(v) != {}
    case Enum => forall v :: Says(schema, "enum", v) && v.Arr? ==>
      exists candidate :: candidate in v.items && SameJsonValue(value, candidate)
    case Minimum => forall v :: Says(schema, "minimum", v) && IsNumber(v) && (value.Int? || value.Float?) ==>
      AsReal(v) <= AsReal(value)
    case Maximum => forall v :: Says(schema, "maximum", v) && IsNumber(v) && (value.Int? || value.Float?) ==>
      AsReal(value) <= AsReal(v)
    case MinLength => forall n :: Says(schema, "minLength", Int(n)) && value.Str? ==> n <= |value.s|
    case MaxLength => forall n :: Says(schema, "maxLength", Int(n)) && value.Str? ==> |value.s| <= n
    case MinItems => forall n :: Says(schema, "minItems", Int(n)) && value.Arr? ==> n <= |value.items|
    case MaxItems => forall n :: Says(schema, "maxItems", Int(n)) && value.Arr? ==> |value.items| <= n
    case Required => forall v, k :: Says(schema, "required", v) && v.Arr? && value.Obj? && 0 <= k < |v.items| ==>
      v.items[k].Str? && exists j :: 0 <= j < |value.fields| && value.fields[j].name == v.items[k].s
    case AdditionalProperties => Says(schema, "additionalProperties", Bool(false)) && value.Obj? ==>
      forall k :: 0 <= k < |value.fields| ==> IsDeclared(schema, value.fields[k].name)
  }

  ghost predicate IsDeclared(schema: Json, name: string)
    requires schema.Obj?
  {
    exists p, j :: Says(schema, "properties", p) && p.Obj? && 0 <= j < |p.fields| && p.fields[j].name == name
  }

  // The same in terms of what the code reads and compares.
  predicate KeywordAsGiven(value: Json, schema: Json, keyword: Keyword)
    requires schema.Obj?
  {
    match keyword
    case Type => Given(schema, "type").Some? ==> TypeNames(value) * DeclaredTypes(Given(schema, "type").value) != {}
    case Enum => Given(schema, "enum").Some? && Given(schema, "enum").value.Arr? ==>
      exists candidate :: candidate in Given(schema, "enum").value.items && SameJsonValue(value, candidate)
    case Minimum => Given(schema, "minimum").Some? && IsNumber(Given(schema, "minimum").value) && IsNumber(value) ==>
      AsReal(Given(schema, "minimum").value) <= AsReal(value)
    case Maximum => Given(schema, "maximum").Some? && IsNumber(Given(schema, "maximum").value) && IsNumber(value) ==>
      AsReal(value) <= AsReal(Given(schema, "maximum").value)
    case MinLength => value.Str? ==> AtLeast(|value.s|, Given(schema, "minLength"))
    case MaxLength => value.Str? ==> AtMost(|value.s|, Given(schema, "maxLength"))
    case MinItems => value.Arr? ==> AtLeast(|value.items|, Given(schema, "minItems"))
    case MaxItems => value.Arr? ==> AtMost(|value.items|, Given(schema, "maxItems"))
    case Required => value.Obj? ==> HasRequired(value, Given(schema, "required"))
    case AdditionalProperties => value.Obj? && Given(schema, "additionalProperties") == Some(Bool(false)) ==>
      !HasUnexpected(value, schema)
  }

  lemma HoldsAsGiven(value: Json, schema: Json, keyword: Keyword)
    requires schema.Obj?
    ensures KeywordHolds(value, schema, keyword) <==> KeywordAsGiven(value, schema, keyword)
  {
    SaidOfNodes(schema);
    hide Says, Given, SameJsonValue, TypeNames, DeclaredTypes;
    match keyword
    case Type =>
    case Enum =>
    case Minimum =>
    case Maximum =>
    case MinLength =>
    case MaxLength =>
    case MinItems =>
    case MaxItems =>
    case Required =>
    case AdditionalProperties => DeclaredAsGiven(schema);
  }

  lemma DeclaredAsGiven(schema: Json)
    requires schema.Obj?
    ensures forall name :: IsDeclared(schema, name) <==> name in Declared(schema)
  {
    SaidOfNodes(schema);
    hide Says, Given;
  }

  lemma AllAsGiven(value: Json, schema: Json)
    requires schema.Obj?
    ensures forall keyword :: KeywordHolds(value, schema, keyword) <==> KeywordAsGiven(value, schema, keyword)
  {
    forall keyword ensures KeywordHolds(value, schema, keyword) <==> KeywordAsGiven(value, schema, keyword) {
      HoldsAsGiven(value, schema, keyword);
    }
  }

  predicate AtLeast(size: nat, limit: Option<Json>) {
    limit.Some? && limit.value.Int? ==> limit.value.i <= size
  }

  predicate AtMost(size: nat, limit: Option<Json>) {
    limit.Some? && limit.value.Int? ==> size <= limit.value.i
  }

  predicate Requires(value: Json, name: Json)
    requires value.Obj?
  {
    name.Str? && Has(value, name.s)
  }

  function Declared(schema: Json): set<string>
    requires schema.Obj?
  {
    var properties := Given(schema, "properties");
    if properties.Some? && properties.value.Obj?
      then set k | 0 <= k < |properties.value.fields| :: properties.value.fields[k].name else {}
  }

  ghost predicate NodeHolds(value: Json, schema: Json)
    requires schema.Obj?
  {
    forall keyword :: KeywordHolds(value, schema, keyword)
  }

  // Where a schema node applies inside a payload: under a declared property the object has, or to
  // every item of an array.
  datatype Step = Under(property: nat) | At(item: nat)

  function Meets(value: Json, schema: Json, path: seq<Step>): Option<(Json, Json)>
    decreases |path|
  {
    if path == [] then Some((value, schema))
    else if !schema.Obj? then None
    else match path[0]
    case Under(k) =>
      var properties := Given(schema, "properties");
      if value.Obj? && properties.Some? && properties.value.Obj? && k < |properties.value.fields|
         && Has(value, properties.value.fields[k].name)
      then Meets(Get(value, properties.value.fields[k].name).value, properties.value.fields[k].value, path[1..])
        else None
    case At(k) =>
      var items := Given(schema, "items");
      if value.Arr? && k < |value.items| && items.Some?
      then Meets(value.items[k], items.value, path[1..]) else None
  }

  // The meaning of a schema: every keyword of every node holds of every value the node applies to.
  ghost predicate Satisfies(value: Json, schema: Json) {
    forall path :: Meets(value, schema, path).Some? ==> MetHolds(Meets(value, schema, path).value)
  }

  ghost predicate MetHolds(met: (Json, Json)) {
    met.1.Obj? && NodeHolds(met.0, met.1)
  }

  // --- Equality of JSON values ---

  // The language's own equality: a boolean is the number one or zero, and fields have no order.
  predicate Equal(left: Json, right: Json)
    decreases left
  {
    match (left, right)
    case (Null, Null) => true
    case (Str(a), Str(b)) => a == b
    case (Arr(a), Arr(b)) => |a| == |b| && forall k :: 0 <= k < |a| ==> Equal(a[k], b[k])
    case (Obj(a), Obj(b)) =>
      && (forall k :: 0 <= k < |a| ==> Has(right, a[k].name) && Equal(a[k].value, Get(right, a[k].name).value))
      && (forall k :: 0 <= k < |b| ==> Has(left, b[k].name))
    case _ => Numeric(left).Some? && Numeric(left) == Numeric(right)
  }

  function Numeric(value: Json): Option<real> {
    match value
    case Bool(b) => Some(if b then 1.0 else 0.0)
    case Int(i) => Some(i as real)
    case Float(r) => Some(r)
    case _ => None
  }

  predicate SameJsonValue(left: Json, right: Json) {
    left.Bool? == right.Bool? && Equal(left, right)
  }

  // --- Validating a payload ---

  datatype Verdict = Accepted | Rejected(path: seq<Step>, keyword: Keyword)

  function MatchesType(value: Json, expected: string): bool {
    if expected == "null" then value.Null?
    else if expected == "boolean" then value.Bool?
    else if expected == "integer" then value.Int?
    else if expected == "number" then value.Int? || value.Float?
    else if expected == "string" then value.Str?
    else if expected == "array" then value.Arr?
    else if expected == "object" then value.Obj?
    else false
  }

  predicate MatchesDeclaredTypes(value: Json, declared: Option<Json>) {
    match declared
    case None => true
    case Some(Str(name)) => MatchesType(value, name)
    case Some(Arr(items)) => exists k :: 0 <= k < |items| && items[k].Str? && MatchesType(value, items[k].s)
    case _ => false
  }

  predicate EnumAdmits(value: Json, allowed: Option<Json>) {
    allowed.Some? && allowed.value.Arr? && allowed.value.items != [] ==>
      exists k :: 0 <= k < |allowed.value.items| && SameJsonValue(value, allowed.value.items[k])
  }

  // The first bound the value breaks, in the order the checks are made.
  function BrokenBound(value: Json, schema: Json): Option<Keyword>
    requires schema.Obj?
  {
    var minimum, maximum := Given(schema, "minimum"), Given(schema, "maximum");
    if IsNumber(value) && minimum.Some? && Numeric(minimum.value).Some? &&
      AsReal(value) < Numeric(minimum.value).value then Some(Minimum)
    else if IsNumber(value) && maximum.Some? && Numeric(maximum.value).Some? &&
      AsReal(value) > Numeric(maximum.value).value then Some(Maximum)
    else if value.Str? && !AtLeast(|value.s|, Given(schema, "minLength")) then Some(MinLength)
    else if value.Str? && !AtMost(|value.s|, Given(schema, "maxLength")) then Some(MaxLength)
    else if value.Arr? && !AtLeast(|value.items|, Given(schema, "minItems")) then Some(MinItems)
    else if value.Arr? && !AtMost(|value.items|, Given(schema, "maxItems")) then Some(MaxItems)
    else None
  }

  predicate HasRequired(value: Json, required: Option<Json>)
    requires value.Obj?
  {
    required.Some? && required.value.Arr? ==> forall k :: 0 <= k < |required.value.items| ==>
      Requires(value, required.value.items[k])
  }

  predicate HasUnexpected(value: Json, schema: Json)
    requires value.Obj? && schema.Obj?
  {
    exists k :: 0 <= k < |value.fields| && value.fields[k].name !in Declared(schema)
  }

  function ValidateNode(value: Json, schema: Json, path: seq<Step>): Verdict
    requires schema.Obj?
    decreases value, 2, 0
  {
    if !MatchesDeclaredTypes(value, Given(schema, "type")) then Rejected(path, Type)
    else if !EnumAdmits(value, Given(schema, "enum")) then Rejected(path, Enum)
    else if BrokenBound(value, schema).Some? then Rejected(path, BrokenBound(value, schema).value)
    else if value.Obj? then ValidateObject(value, schema, path)
    else if value.Arr? && Given(schema, "items").Some? && Given(schema, "items").value.Obj? then
      ValidateItems(value, Given(schema, "items").value, 0, path)
    else Accepted
  }

  function ValidateItems(value: Json, items: Json, k: nat, path: seq<Step>): Verdict
    requires value.Arr? && items.Obj? && k <= |value.items|
    decreases value, 0, |value.items| - k
  {
    if k == |value.items| then Accepted else
      var verdict := ValidateNode(value.items[k], items, path + [At(k)]);
      if verdict.Rejected? then verdict else ValidateItems(value, items, k + 1, path)
  }

  function ValidateObject(value: Json, schema: Json, path: seq<Step>): Verdict
    requires value.Obj? && schema.Obj?
    decreases value, 1, 0
  {
    if !HasRequired(value, Given(schema, "required")) then Rejected(path, Required) else
      var properties := Given(schema, "properties");
      var verdict := if properties.Some? &&
        properties.value.Obj? then ValidateProperties(value, properties.value, 0, path) else Accepted;
      if verdict.Rejected? then verdict
      else if Given(schema, "additionalProperties") == Some(Bool(false)) &&
        HasUnexpected(value, schema) then Rejected(path, AdditionalProperties)
      else Accepted
  }

  function ValidateProperties(value: Json, properties: Json, k: nat, path: seq<Step>): Verdict
    requires value.Obj? && properties.Obj? && k <= |properties.fields|
    decreases value, 0, |properties.fields| - k
  {
    if k == |properties.fields| then Accepted else
      var name, child := properties.fields[k].name, properties.fields[k].value;
      var verdict := if Has(value, name) &&
        child.Obj? then ValidateNode(Get(value, name).value, child, path + [Under(k)]) else Accepted;
      if verdict.Rejected? then verdict else ValidateProperties(value, properties, k + 1, path)
  }

  datatype Error = RequestError(node: seq<SchemaStep>) | SchemaError(path: seq<Step>, keyword: Keyword)

  datatype Decision = Fits(payload: Json) | Misfit(error: Error)

  function ValidatePayload(payload: Json, schema: Json): Decision {
    var checked := CheckNode(schema, []);
    if checked.Unusable? then Misfit(RequestError(checked.path)) else
      CheckPasses(schema, [], []);
      var verdict := ValidateNode(payload, schema, []);
      if verdict.Rejected? then Misfit(SchemaError(verdict.path, verdict.keyword)) else Fits(payload)
  }

  // --- The validator means what the schema says ---

  lemma UsableBelow(schema: Json, step: SchemaStep)
    requires UsableSchema(schema) && SchemaAt(schema, [step]).Some?
    ensures UsableSchema(SchemaAt(schema, [step]).value)
  {
    var child := SchemaAt(schema, [step]).value;
    forall p | SchemaAt(child, p).Some? ensures NodeUsable(SchemaAt(child, p).value) {
      assert ([step] + p)[1..] == p;
      assert SchemaAt(schema, [step] + p) == SchemaAt(child, p);
    }
  }

  lemma UsableProperty(schema: Json, k: nat)
    requires UsableSchema(schema) && schema.Obj? && Given(schema, "properties").Some?
    requires Given(schema, "properties").value.Obj? && k < |Given(schema, "properties").value.fields|
    ensures UsableSchema(Given(schema, "properties").value.fields[k].value)
    ensures Given(schema, "properties").value.fields[k].value.Obj?
  {
    var child := Given(schema, "properties").value.fields[k].value;
    assert SchemaAt(schema, [Property(k)]) == Some(child);
    UsableBelow(schema, Property(k));
    UsableHere(child);
  }

  lemma UsableItems(schema: Json)
    requires UsableSchema(schema) && schema.Obj? && Given(schema, "items").Some?
    ensures UsableSchema(Given(schema, "items").value) && Given(schema, "items").value.Obj?
  {
    var child := Given(schema, "items").value;
    assert SchemaAt(schema, [Items]) == Some(child);
    UsableBelow(schema, Items);
    UsableHere(child);
  }

  lemma UsableHere(schema: Json)
    requires UsableSchema(schema)
    ensures NodeUsable(schema) && NodeAsGiven(schema)
  {
    assert SchemaAt(schema, []) == Some(schema);
    UsableAsGiven(schema);
  }

  lemma MatchesNames(value: Json, expected: string)
    ensures MatchesType(value, expected) <==> expected in TypeNames(value)
  {}

  lemma TypesAgree(value: Json, schema: Json)
    requires NodeUsable(schema)
    ensures MatchesDeclaredTypes(value, Given(schema, "type")) <==> KeywordHolds(value, schema, Type)
  {
    var declared := Given(schema, "type");
    UsableAsGiven(schema);
    HoldsAsGiven(value, schema, Type);
    hide NodeUsable, KeywordHolds;
    if declared.Some? {
      var names := DeclaredTypes(declared.value);
      var shared := TypeNames(value) * names;
      hide TypeNames, MatchesType, Given, KEYWORDS;
      forall name ensures MatchesType(value, name) <==> name in TypeNames(value) { MatchesNames(value, name); }
      if MatchesDeclaredTypes(value, declared) {
        var name :| name in names && MatchesType(value, name);
        assert name in shared;
      } else {
        assert shared == {};
      }
    }
  }

  lemma {:induction false} BoundsAgree(value: Json, schema: Json)
    requires NodeUsable(schema)
    ensures BrokenBound(value, schema).None? <==> BoundsHold(value, schema)
    ensures BrokenBound(value, schema).Some? ==> !KeywordHolds(value, schema, BrokenBound(value, schema).value)
  {
    UsableAsGiven(schema);
    AllAsGiven(value, schema);
    hide NodeUsable, KeywordHolds;
    BoundsAsGiven(value, schema);
    hide NodeAsGiven, KeywordAsGiven, BrokenBound;
  }

  lemma BoundsAsGiven(value: Json, schema: Json)
    requires NodeAsGiven(schema)
    ensures BrokenBound(value, schema).None? <==>
      && KeywordAsGiven(value, schema, Minimum) && KeywordAsGiven(value, schema, Maximum)
      && KeywordAsGiven(value, schema, MinLength) && KeywordAsGiven(value, schema, MaxLength)
      && KeywordAsGiven(value, schema, MinItems) && KeywordAsGiven(value, schema, MaxItems)
    ensures BrokenBound(value, schema).Some? ==> !KeywordAsGiven(value, schema, BrokenBound(value, schema).value)
  {
    hide Given, KEYWORDS, TypeUsable, EnumUsable, FlagUsable, PropertiesUsable, NamesUsable;
  }

  // The declarable types are those that values have.
  lemma TypesAreOfValues(name: string)
    ensures name in TYPES <==> exists value :: name in TypeNames(value)
  {
    if name in TYPES {
      var value := if name == "object" then Obj([]) else if name == "array" then Arr([])
        else if name == "string" then Str("") else if name == "boolean" then Bool(true)
        else if name == "null" then Null else Int(0);
      assert name in TypeNames(value);
    }
  }

  function NameOf(keyword: Keyword): string {
    match keyword
    case Type => "type"
    case Enum => "enum"
    case Minimum => "minimum"
    case Maximum => "maximum"
    case MinLength => "minLength"
    case MaxLength => "maxLength"
    case MinItems => "minItems"
    case MaxItems => "maxItems"
    case Required => "required"
    case AdditionalProperties => "additionalProperties"
  }

  // A known name is that of a keyword, of a place where sub-schemas stand, or of an annotation.
  lemma KnownNames(name: string)
    ensures name in KEYWORDS <==>
      (exists keyword :: NameOf(keyword) == name) || name in {"properties", "items"} ||
        name in {"description", "title", "default", "examples", "format"}
  {
    forall keyword ensures NameOf(keyword) in KEYWORDS {
      match keyword
      case Type =>
      case Enum =>
      case _ =>
    }
    if name in KEYWORDS && name !in {"properties", "items"} && name !in ANNOTATIONS {
      var keyword := if name == "type" then Type else if name == "enum" then Enum
        else if name == "minimum" then Minimum else if name == "maximum" then Maximum
        else if name == "minLength" then MinLength else if name == "maxLength" then MaxLength
        else if name == "minItems" then MinItems else if name == "maxItems" then MaxItems
        else if name == "required" then Required else AdditionalProperties;
      assert NameOf(keyword) == name;
    }
  }

  ghost predicate BoundsHold(value: Json, schema: Json)
    requires schema.Obj?
  {
    && KeywordHolds(value, schema, Minimum) && KeywordHolds(value, schema, Maximum)
    && KeywordHolds(value, schema, MinLength) && KeywordHolds(value, schema, MaxLength)
    && KeywordHolds(value, schema, MinItems) && KeywordHolds(value, schema, MaxItems)
  }

  // An accepted value keeps every keyword of the node it was checked against.
  lemma AcceptedHere(value: Json, schema: Json, path: seq<Step>)
    requires UsableSchema(schema) && schema.Obj? && ValidateNode(value, schema, path).Accepted?
    ensures NodeHolds(value, schema)
  {
    UsableHere(schema);
    TypesAgree(value, schema);
    BoundsAgree(value, schema);
    AllAsGiven(value, schema);
    hide NodeUsable, KeywordHolds;
    forall keyword ensures KeywordAsGiven(value, schema, keyword) {
      match keyword
      case Type =>
      case Enum =>
      case Minimum =>
      case Maximum =>
      case MinLength =>
      case MaxLength =>
      case MinItems =>
      case MaxItems =>
      case Required =>
      case AdditionalProperties =>
    }
  }

  lemma {:induction false} EachItemAccepted(value: Json, items: Json, k: nat, path: seq<Step>, j: nat)
    requires value.Arr? && items.Obj? && k <= j < |value.items|
    requires ValidateItems(value, items, k, path).Accepted?
    ensures ValidateNode(value.items[j], items, path + [At(j)]).Accepted?
    decreases j - k
  {
    if k < j {
      EachItemAccepted(value, items, k + 1, path, j);
    }
  }

  lemma {:induction false} EachPropertyAccepted(value: Json, properties: Json, k: nat, path: seq<Step>, j: nat)
    requires value.Obj? && properties.Obj? && k <= j < |properties.fields|
    requires ValidateProperties(value, properties, k, path).Accepted?
    requires Has(value, properties.fields[j].name) && properties.fields[j].value.Obj?
    ensures ValidateNode(Get(value, properties.fields[j].name).value, properties.fields[j].value,
      path + [Under(j)]).Accepted?
    decreases j - k
  {
    if k < j {
      EachPropertyAccepted(value, properties, k + 1, path, j);
    }
  }

  lemma {:induction false} ValidatePasses(value: Json, schema: Json, path: seq<Step>, p: seq<Step>)
    requires UsableSchema(schema) && schema.Obj? && ValidateNode(value, schema, path).Accepted?
    requires Meets(value, schema, p).Some?
    ensures MetHolds(Meets(value, schema, p).value)
    decreases |p|
  {
    if p == [] {
      AcceptedHere(value, schema, path);
    } else if p[0].Under? {
      var k, properties := p[0].property, Given(schema, "properties").value;
      UsableProperty(schema, k);
      EachPropertyAccepted(value, properties, 0, path, k);
      ValidatePasses(Get(value, properties.fields[k].name).value, properties.fields[k].value, path + [p[0]], p[1..]);
    } else {
      var k, items := p[0].item, Given(schema, "items").value;
      UsableItems(schema);
      EachItemAccepted(value, items, 0, path, k);
      ValidatePasses(value.items[k], items, path + [p[0]], p[1..]);
    }
  }

  // A rejection at `path` plus `p` names a keyword that really fails at the node met along `p`.
  ghost predicate Names(verdict: Verdict, value: Json, schema: Json, path: seq<Step>, p: seq<Step>) {
    && verdict.Rejected? && verdict.path == path + p
    && Meets(value, schema, p).Some?
    && var met := Meets(value, schema, p).value;
       met.1.Obj? && !KeywordHolds(met.0, met.1, verdict.keyword)
  }

  predicate FailsAlone(value: Json, schema: Json)
    requires schema.Obj?
  {
    !MatchesDeclaredTypes(value, Given(schema, "type")) || !EnumAdmits(value, Given(schema, "enum")) ||
      BrokenBound(value, schema).Some?
  }

  lemma RejectedAlone(value: Json, schema: Json, path: seq<Step>)
    requires NodeUsable(schema) && FailsAlone(value, schema)
    ensures ValidateNode(value, schema, path).Rejected? && ValidateNode(value, schema, path).path == path
    ensures !KeywordHolds(value, schema, ValidateNode(value, schema, path).keyword)
  {
    UsableAsGiven(schema);
    AllAsGiven(value, schema);
    hide Given, KEYWORDS, NodeUsable, KeywordHolds;
    TypesAgree(value, schema);
    BoundsAgree(value, schema);
    hide BrokenBound, TypeNames, DeclaredTypes, TypeUsable;
  }

  lemma {:induction false} ValidateFails(value: Json, schema: Json, path: seq<Step>) returns (p: seq<Step>)
    requires UsableSchema(schema) && schema.Obj? && ValidateNode(value, schema, path).Rejected?
    ensures Names(ValidateNode(value, schema, path), value, schema, path, p)
    decreases value, 2, 0
  {
    hide Get, KEYWORDS, TypeNames, DeclaredTypes, TypeUsable, EnumUsable, FlagUsable, CountUsable, BoundUsable,
      BrokenBound;
    UsableHere(schema);
    AllAsGiven(value, schema);
    hide NodeUsable, KeywordHolds;
    p := [];
    if FailsAlone(value, schema) {
      RejectedAlone(value, schema, path);
      hide KeywordAsGiven;
    } else if value.Obj? {
      var properties := Given(schema, "properties");
      if HasRequired(value, Given(schema, "required")) && properties.Some? &&
        ValidateProperties(value, properties.value, 0, path).Rejected? {
        p := SomePropertyFails(value, schema, 0, path);
      }
    } else {
      UsableItems(schema);
      p := SomeItemFails(value, schema, 0, path);
    }
  }

  lemma {:induction false} SomeItemFails(value: Json, schema: Json, k: nat, path: seq<Step>) returns (p: seq<Step>)
    requires UsableSchema(schema) && schema.Obj? && Given(schema, "items").Some? && Given(schema, "items").value.Obj?
    requires value.Arr? && k <= |value.items|
    requires ValidateItems(value, Given(schema, "items").value, k, path).Rejected?
    ensures Names(ValidateItems(value, Given(schema, "items").value, k, path), value, schema, path, p)
    decreases value, 0, |value.items| - k
  {
    hide KeywordHolds, NodeUsable, Get;
    var items := Given(schema, "items").value;
    UsableItems(schema);
    if ValidateNode(value.items[k], items, path + [At(k)]).Rejected? {
      var below := ValidateFails(value.items[k], items, path + [At(k)]);
      p := [At(k)] + below;
      assert p[1..] == below;
    } else {
      p := SomeItemFails(value, schema, k + 1, path);
    }
  }

  lemma {:induction false} SomePropertyFails(value: Json, schema: Json, k: nat, path: seq<Step>) returns (p: seq<Step>)
    requires UsableSchema(schema) && schema.Obj? && Given(schema, "properties").Some? &&
      Given(schema, "properties").value.Obj?
    requires value.Obj? && k <= |Given(schema, "properties").value.fields|
    requires ValidateProperties(value, Given(schema, "properties").value, k, path).Rejected?
    ensures Names(ValidateProperties(value, Given(schema, "properties").value, k, path), value, schema, path, p)
    decreases value, 0, |Given(schema, "properties").value.fields| - k
  {
    hide KeywordHolds, NodeUsable, Get;
    var properties := Given(schema, "properties").value;
    UsableProperty(schema, k);
    var name, child := properties.fields[k].name, properties.fields[k].value;
    if Has(value, name) && ValidateNode(Get(value, name).value, child, path + [Under(k)]).Rejected? {
      var below := ValidateFails(Get(value, name).value, child, path + [Under(k)]);
      p := [Under(k)] + below;
      assert p[1..] == below;
    } else {
      p := SomePropertyFails(value, schema, k + 1, path);
    }
  }

  // For a usable schema the validator accepts exactly the payloads the schema describes.
  lemma {:induction false} ValidatorIsExact(value: Json, schema: Json)
    requires UsableSchema(schema) && schema.Obj?
    ensures ValidateNode(value, schema, []).Accepted? <==> Satisfies(value, schema)
  {
    if ValidateNode(value, schema, []).Accepted? {
      forall p | Meets(value, schema, p).Some? ensures MetHolds(Meets(value, schema, p).value) {
        ValidatePasses(value, schema, [], p);
      }
    } else {
      var p := ValidateFails(value, schema, []);
    }
  }

  ghost predicate Justified(result: Decision, payload: Json, schema: Json) {
    match result
    case Fits(returned) => returned == payload
    case Misfit(error) =>
      match error
      case RequestError(node) => SchemaAt(schema, node).Some? && !NodeUsable(SchemaAt(schema, node).value)
      case SchemaError(path, keyword) =>
        UsableSchema(schema) && Names(Rejected(path, keyword), payload, schema, [], path)
  }

  // A payload comes back unchanged exactly when its schema is usable and describes it. Otherwise the
  // error names a node of the schema that is unusable, or a value of the payload and a keyword it breaks.
  lemma {:induction false} PayloadIsDecided(payload: Json, schema: Json)
    ensures ValidatePayload(payload, schema) == Fits(payload) <==> UsableSchema(schema) && Satisfies(payload, schema)
    ensures Justified(ValidatePayload(payload, schema), payload, schema)
  {
    CheckIsExact(schema);
    if CheckNode(schema, []).Unusable? {
      var p := CheckFails(schema, []);
      assert [] + p == p;
    } else {
      UsableHere(schema);
      ValidatorIsExact(payload, schema);
      if ValidateNode(payload, schema, []).Rejected? {
        var p := ValidateFails(payload, schema, []);
        assert [] + p == p;
      }
    }
  }
}
