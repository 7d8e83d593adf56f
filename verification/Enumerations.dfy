// What an enumeration admits, against what it lists: the language's equality and the standard's.
module Enumerations {
  import opened JsonSchema

  // --- Where `enum` admits more than it lists ---

  // Equality as section 4.2.2 of JSON Schema Core has it: a boolean equals only a boolean.
  predicate JsonEqual(left: Json, right: Json)
    decreases left
  {
    match (left, right)
    case (Null, Null) => true
    case (Bool(a), Bool(b)) => a == b
    case (Str(a), Str(b)) => a == b
    case (Arr(a), Arr(b)) => |a| == |b| && forall k :: 0 <= k < |a| ==> JsonEqual(a[k], b[k])
    case (Obj(a), Obj(b)) =>
      && (forall k :: 0 <= k < |a| ==> Has(right, a[k].name) && JsonEqual(a[k].value, Get(right, a[k].name).value))
      && (forall k :: 0 <= k < |b| ==> Has(left, b[k].name))
    case _ => IsNumber(left) && IsNumber(right) && AsReal(left) == AsReal(right)
  }

  // At some place, one value has a boolean and the other has none.
  predicate Mixed(left: Json, right: Json)
    decreases left
  {
    if left.Arr? && right.Arr? && |left.items| == |right.items| then
      exists k :: 0 <= k < |left.items| && Mixed(left.items[k], right.items[k])
    else if left.Obj? && right.Obj? then
      exists k :: 0 <= k < |left.fields| && Has(right, left.fields[k].name)
                  && Mixed(left.fields[k].value, Get(right, left.fields[k].name).value)
    else left.Bool? != right.Bool?
  }

  lemma {:induction false} EqualUnlessMixed(left: Json, right: Json)
    ensures JsonEqual(left, right) <==> Equal(left, right) && !Mixed(left, right)
    decreases left
  {
    match left
    case Arr(items) =>
      if right.Arr? && |right.items| == |items| {
        forall k | 0 <= k < |items|
          ensures JsonEqual(items[k], right.items[k]) <==>
            Equal(items[k], right.items[k]) && !Mixed(items[k], right.items[k])
        {
          EqualUnlessMixed(items[k], right.items[k]);
        }
      }
    case Obj(fields) =>
      if right.Obj? {
        forall k | 0 <= k < |fields| && Has(right, fields[k].name)
          ensures var other := Get(right, fields[k].name).value;
                  JsonEqual(fields[k].value, other) <==> Equal(fields[k].value, other) && !Mixed(fields[k].value, other)
        {
          EqualUnlessMixed(fields[k].value, Get(right, fields[k].name).value);
        }
      }
    case _ =>
  }

  // The comparison behind `enum` errs only by accepting, and exactly when the two values differ in
  // nothing but booleans below the top that stand where the other has the number they count as.
  lemma {:induction false} EnumEqualityIsLooser(left: Json, right: Json)
    ensures JsonEqual(left, right) ==> SameJsonValue(left, right)
    ensures SameJsonValue(left, right) && !JsonEqual(left, right) <==>
      Equal(left, right) && Mixed(left, right) && left.Bool? == right.Bool?
  {
    EqualUnlessMixed(left, right);
  }

  // One schema, whose enumeration lists [1] and 2: it admits [true], which is not listed, though not true.
  lemma {:induction false} EnumAdmitsAnUnlistedArray()
    ensures var allowed := Arr([Arr([Int(1)]), Int(1)]);
      var schema := Obj([Field("enum", allowed)]);
      && ValidatePayload(Arr([Bool(true)]), schema) == Fits(Arr([Bool(true)]))
      && ValidatePayload(Bool(true), schema).Misfit?
      && forall candidate :: candidate in allowed.items ==> !JsonEqual(Arr([Bool(true)]), candidate)
  {
    hide ValidatePayload, Given;
    var listed, payload := Arr([Int(1)]), Arr([Bool(true)]);
    var allowed := Arr([listed, Int(1)]);
    assert Equal(payload.items[0], listed.items[0]) && !JsonEqual(payload.items[0], listed.items[0]);
    assert SameJsonValue(payload, allowed.items[0]) && !JsonEqual(payload, allowed.items[0]);
    assert EnumAdmits(payload, Some(allowed)) && !EnumAdmits(Bool(true), Some(allowed));
    OnlyEnum(allowed, payload);
    OnlyEnum(allowed, Bool(true));
  }

  // A schema with an enumeration and nothing else accepts what the enumeration admits.
  lemma OnlyEnum(allowed: Json, payload: Json)
    requires allowed.Arr? && allowed.items != []
    ensures var schema := Obj([Field("enum", allowed)]);
      ValidatePayload(payload, schema) == Fits(payload) <==> EnumAdmits(payload, Some(allowed))
    ensures ValidatePayload(payload, Obj([Field("enum", allowed)])).Fits? ==> EnumAdmits(payload, Some(allowed))
  {
    var schema := Obj([Field("enum", allowed)]);
    NothingElseGiven(allowed);
    hide Given, SameJsonValue, EnumAdmits, KEYWORDS;
    assert CheckNode(schema, []).Usable?;
    assert BrokenBound(payload, schema).None?;
    if payload.Obj? {
      assert ValidateObject(payload, schema, []).Accepted?;
    }
  }

  lemma NothingElseGiven(allowed: Json)
    requires allowed.Arr?
    ensures var schema := Obj([Field("enum", allowed)]);
      Given(schema, "enum") == Some(allowed) && forall name :: name != "enum" ==> Given(schema, name).None?
  {
    var schema := Obj([Field("enum", allowed)]);
    assert Given(schema, "enum") == Some(allowed) by { assert Find(schema, 0, "enum") == Some(allowed); }
    forall name | name != "enum" ensures Given(schema, name).None? {
      assert schema.fields[0].name != name;
    }
  }

  // --- Enumerations that mean what the standard says ---

  // No boolean, and no number that a boolean counts as, at any depth.
  predicate Plain(value: Json) {
    match value
    case Bool(_) => false
    case Int(i) => i != 0 && i != 1
    case Float(r) => r != 0.0 && r != 1.0
    case Arr(items) => forall k :: 0 <= k < |items| ==> Plain(items[k])
    case Obj(fields) => forall k :: 0 <= k < |fields| ==> Plain(fields[k].value)
    case _ => true
  }

  // None of these below its top.
  predicate PlainBelow(value: Json) {
    match value
    case Arr(_) => Plain(value)
    case Obj(_) => Plain(value)
    case _ => true
  }

  lemma {:induction false} PlainIsNotMixed(left: Json, right: Json)
    requires Equal(left, right) && Plain(right)
    ensures !Mixed(left, right)
    decreases left
  {
    match left
    case Arr(items) =>
      forall k | 0 <= k < |items| ensures !Mixed(items[k], right.items[k]) {
        PlainIsNotMixed(items[k], right.items[k]);
      }
    case Obj(fields) =>
      forall k | 0 <= k < |fields| ensures !Mixed(fields[k].value, Get(right, fields[k].name).value) {
        var other := Get(right, fields[k].name).value;
        assert Field(fields[k].name, other) in right.fields;
        PlainIsNotMixed(fields[k].value, other);
      }
    case _ =>
  }

  // Against such a candidate the comparison behind `enum` is the standard's equality.
  lemma PlainCandidatesAgree(value: Json, candidate: Json)
    requires PlainBelow(candidate)
    ensures SameJsonValue(value, candidate) <==> JsonEqual(value, candidate)
  {
    EqualUnlessMixed(value, candidate);
    if SameJsonValue(value, candidate) && Plain(candidate) {
      PlainIsNotMixed(value, candidate);
    }
  }

  predicate PlainCandidates(schema: Json)
    requires schema.Obj?
  {
    Given(schema, "enum").Some? && Given(schema, "enum").value.Arr? ==>
      forall candidate :: candidate in Given(schema, "enum").value.items ==> PlainBelow(candidate)
  }

  ghost predicate PlainEnums(schema: Json) {
    forall path :: SchemaAt(schema, path).Some? && SchemaAt(schema, path).value.Obj? ==>
      PlainCandidates(SchemaAt(schema, path).value)
  }

  // The meaning of a schema with the standard's equality in its enumerations.
  ghost predicate SatisfiesStandard(value: Json, schema: Json) {
    forall path :: Meets(value, schema, path).Some? ==> MetStandard(Meets(value, schema, path).value)
  }

  ghost predicate MetStandard(met: (Json, Json)) {
    met.1.Obj? && forall keyword: Keyword :: if keyword.Enum? then EnumLists(met.0, met.1)
      else KeywordHolds(met.0, met.1, keyword)
  }

  ghost predicate EnumLists(value: Json, schema: Json)
    requires schema.Obj?
  {
    Given(schema, "enum").Some? && Given(schema, "enum").value.Arr? ==>
      exists candidate :: candidate in Given(schema, "enum").value.items && JsonEqual(value, candidate)
  }

  // Whatever applies to a place in a payload is a node of the schema.
  lemma {:induction false} MetIsANode(value: Json, schema: Json, p: seq<Step>) returns (q: seq<SchemaStep>)
    requires Meets(value, schema, p).Some?
    ensures SchemaAt(schema, q) == Some(Meets(value, schema, p).value.1)
    decreases |p|
  {
    if p == [] {
      q := [];
    } else if p[0].Under? {
      var k, properties := p[0].property, Given(schema, "properties").value;
      var below := MetIsANode(Get(value, properties.fields[k].name).value, properties.fields[k].value, p[1..]);
      q := [Property(k)] + below;
      assert q[1..] == below;
    } else {
      var below := MetIsANode(value.items[p[0].item], Given(schema, "items").value, p[1..]);
      q := [Items] + below;
      assert q[1..] == below;
    }
  }

  lemma MetAgrees(met: (Json, Json))
    requires met.1.Obj? ==> PlainCandidates(met.1)
    ensures MetHolds(met) <==> MetStandard(met)
  {
    if met.1.Obj? {
      HoldsAsGiven(met.0, met.1, Enum);
      hide SameJsonValue, JsonEqual, PlainBelow, KeywordHolds;
      var listed := Given(met.1, "enum");
      if listed.Some? && listed.value.Arr? {
        forall candidate | candidate in listed.value.items ensures SameJsonValue(met.0, candidate) <==>
          JsonEqual(met.0, candidate) {
          PlainCandidatesAgree(met.0, candidate);
        }
      }
      assert KeywordHolds(met.0, met.1, Enum) <==> EnumLists(met.0, met.1);
      hide EnumLists;
    }
  }

  // So where no candidate of the schema holds a boolean, zero or one below its top, the validator's
  // enumerations are the standard's.
  lemma PlainEnumsAreStandard(value: Json, schema: Json)
    requires UsableSchema(schema) && schema.Obj? && PlainEnums(schema)
    ensures ValidateNode(value, schema, []).Accepted? <==> SatisfiesStandard(value, schema)
  {
    ValidatorIsExact(value, schema);
    forall p | Meets(value, schema, p).Some? ensures MetHolds(Meets(value, schema, p).value) <==>
      MetStandard(Meets(value, schema, p).value) {
      var q := MetIsANode(value, schema, p);
      MetAgrees(Meets(value, schema, p).value);
    }
    hide MetHolds, MetStandard, UsableSchema, ValidateNode;
  }

  // At this place the enumeration admits a value only for a candidate that differs from it in nothing
  // but booleans below the top.
  ghost predicate SlipsThrough(value: Json, schema: Json)
    requires schema.Obj?
  {
    Given(schema, "enum").Some? && Given(schema, "enum").value.Arr? &&
    var candidates := Given(schema, "enum").value.items;
    && (exists candidate :: candidate in candidates && EqualButMixed(value, candidate))
    && forall candidate :: candidate in candidates ==> Equal(value, candidate) ==> Mixed(value, candidate)
  }

  predicate EqualButMixed(value: Json, candidate: Json) {
    Equal(value, candidate) && Mixed(value, candidate) && value.Bool? == candidate.Bool?
  }

  lemma SlipsOrIsListed(value: Json, schema: Json)
    requires schema.Obj?
    ensures EnumLists(value, schema) <==> KeywordHolds(value, schema, Enum) && !SlipsThrough(value, schema)
  {
    HoldsAsGiven(value, schema, Enum);
    hide Equal, Mixed, JsonEqual, SameJsonValue, KeywordHolds;
    var listed := Given(schema, "enum");
    if listed.Some? && listed.value.Arr? {
      forall candidate | candidate in listed.value.items
        ensures JsonEqual(value, candidate) <==> Equal(value, candidate) && !Mixed(value, candidate)
        ensures JsonEqual(value, candidate) ==> SameJsonValue(value, candidate)
        ensures SameJsonValue(value, candidate) && !JsonEqual(value, candidate) <==> EqualButMixed(value, candidate)
      {
        EqualUnlessMixed(value, candidate);
        EnumEqualityIsLooser(value, candidate);
      }
    }
  }

  ghost predicate MetSlips(met: (Json, Json)) {
    met.1.Obj? && SlipsThrough(met.0, met.1)
  }

  ghost predicate SlipsSomewhere(value: Json, schema: Json) {
    exists path :: Meets(value, schema, path).Some? && MetSlips(Meets(value, schema, path).value)
  }

  // Against any schema, what the standard accepts is accepted, and a payload is accepted against it
  // exactly if it slips through an enumeration somewhere and keeps everything else.
  lemma StandardButForEnums(value: Json, schema: Json)
    requires UsableSchema(schema) && schema.Obj?
    ensures SatisfiesStandard(value, schema) <==>
      ValidateNode(value, schema, []).Accepted? && !SlipsSomewhere(value, schema)
  {
    hide MetHolds, MetStandard, MetSlips, UsableSchema, ValidateNode, Meets;
    ValidatorIsExact(value, schema);
    forall p | Meets(value, schema, p).Some?
      ensures var met := Meets(value, schema, p).value; MetStandard(met) <==> MetHolds(met) && !MetSlips(met)
    {
      StandardHere(Meets(value, schema, p).value);
    }
  }

  lemma StandardHere(met: (Json, Json))
    ensures MetStandard(met) <==> MetHolds(met) && !MetSlips(met)
  {
    if met.1.Obj? {
      SlipsOrIsListed(met.0, met.1);
      hide EnumLists, SlipsThrough, KeywordHolds;
      if MetStandard(met) {
        assert EnumLists(met.0, met.1) by { assert Enum.Enum?; }
        forall keyword: Keyword ensures KeywordHolds(met.0, met.1, keyword) {
          assert if keyword.Enum? then EnumLists(met.0, met.1) else KeywordHolds(met.0, met.1, keyword);
        }
      } else if MetHolds(met) {
        assert KeywordHolds(met.0, met.1, Enum);
      }
    }
  }

  // --- When a lone enumeration means what the standard says ---

  // A dictionary holds no field twice.
  predicate NoRepeats(value: Json) {
    match value
    case Arr(items) => forall k :: 0 <= k < |items| ==> NoRepeats(items[k])
    case Obj(fields) =>
      && (forall i, j :: 0 <= i < j < |fields| ==> fields[i].name != fields[j].name)
      && (forall k :: 0 <= k < |fields| ==> NoRepeats(fields[k].value))
    case _ => true
  }

  predicate HasParts(value: Json) {
    value.Arr? || value.Obj?
  }

  function Count(value: Json): nat
    requires HasParts(value)
  {
    if value.Arr? then |value.items| else |value.fields|
  }

  function Part(value: Json, k: nat): (part: Json)
    requires HasParts(value) && k < Count(value)
    ensures part < value
  {
    if value.Arr? then value.items[k]
    else
      assert value.fields[k] in value.fields;
      value.fields[k].value
  }

  // The same array or object with other parts.
  function WithParts(value: Json, parts: seq<Json>): Json
    requires HasParts(value) && |parts| == Count(value)
  {
    if value.Arr? then Arr(parts)
    else Obj(seq(|parts|, k requires 0 <= k < |parts| => Field(value.fields[k].name, parts[k])))
  }

  // The values that differ from this one at most in booleans and the numbers they count as.
  function Variants(value: Json): set<Json>
    decreases value, 1, 0
  {
    match value
    case Bool(b) => {value, Int(if b then 1 else 0)}
    case Arr(_) => set parts | parts in Choices(value, 0) :: WithParts(value, parts)
    case Obj(_) => set parts | parts in Choices(value, 0) :: WithParts(value, parts)
    case _ =>
      if Numeric(value) == Some(1.0) then {value, Bool(true)}
      else if Numeric(value) == Some(0.0) then {value, Bool(false)}
      else {value}
  }

  // A variant of each part from the k-th on.
  function Choices(value: Json, k: nat): (r: set<seq<Json>>)
    requires HasParts(value) && k <= Count(value)
    ensures forall parts :: parts in r ==> |parts| == Count(value) - k
    decreases value, 0, Count(value) - k
  {
    if k == Count(value) then {[]}
    else
      var first, rest := Variants(Part(value, k)), Choices(value, k + 1);
      set part, parts | part in first && parts in rest :: [part] + parts
  }

  lemma ChoiceOfFirst(value: Json, k: nat, parts: seq<Json>)
    requires HasParts(value) && k < Count(value) && parts != []
    ensures parts in Choices(value, k) <==>
      parts[0] in Variants(Part(value, k)) && parts[1..] in Choices(value, k + 1)
  {
    hide Variants, Part;
    assert parts == [parts[0]] + parts[1..];
    forall part: Json, rest: seq<Json> | parts == [part] + rest ensures part == parts[0] && rest == parts[1..] {}
  }

  // The part chosen for place `j`, in a choice from place `k` on, is a variant of what stands there.
  predicate ChosenAt(value: Json, k: nat, parts: seq<Json>, j: nat)
    requires HasParts(value) && k <= j < Count(value) && |parts| == Count(value) - k
  {
    parts[j - k] in Variants(Part(value, j))
  }

  ghost predicate AllChosen(value: Json, k: nat, parts: seq<Json>)
    requires HasParts(value) && k <= Count(value) && |parts| == Count(value) - k
  {
    forall j: nat :: k <= j < Count(value) ==> ChosenAt(value, k, parts, j)
  }

  lemma ChosenFromTheNext(value: Json, k: nat, parts: seq<Json>)
    requires HasParts(value) && k < Count(value) && |parts| == Count(value) - k
    ensures AllChosen(value, k, parts) <==>
      parts[0] in Variants(Part(value, k)) && AllChosen(value, k + 1, parts[1..])
  {
    hide Variants, Part;
    var next, rest := k + 1, parts[1..];
    assert ChosenAt(value, k, parts, k) <==> parts[0] in Variants(Part(value, k));
    forall j: nat | k < j < Count(value)
      ensures ChosenAt(value, k, parts, j) <==> ChosenAt(value, next, rest, j)
    {
      assert parts[j - k] == rest[j - next];
    }
    hide ChosenAt;
    if !AllChosen(value, next, rest) {
      var j: nat :| next <= j < Count(value) && !ChosenAt(value, next, rest, j);
      assert !ChosenAt(value, k, parts, j);
    }
    if !AllChosen(value, k, parts) {
      var j: nat :| k <= j < Count(value) && !ChosenAt(value, k, parts, j);
      assert j > k ==> !ChosenAt(value, next, rest, j);
    }
  }

  lemma {:induction false} ChoicesAre(value: Json, k: nat, parts: seq<Json>)
    requires HasParts(value) && k <= Count(value) && |parts| == Count(value) - k
    ensures parts in Choices(value, k) <==> AllChosen(value, k, parts)
    decreases |parts|
  {
    if parts != [] {
      hide Variants, Part, Choices, AllChosen;
      ChoiceOfFirst(value, k, parts);
      ChosenFromTheNext(value, k, parts);
      ChoicesAre(value, k + 1, parts[1..]);
    }
  }

  lemma FieldOnce(value: Json, k: nat)
    requires value.Obj? && NoRepeats(value) && k < |value.fields|
    ensures Get(value, value.fields[k].name) == Some(value.fields[k].value)
  {
    var found := Get(value, value.fields[k].name).value;
    assert Field(value.fields[k].name, found) in value.fields;
  }

  lemma {:induction false} VariantIsEqual(variant: Json, value: Json)
    requires variant in Variants(value) && NoRepeats(value)
    ensures Equal(variant, value) && NoRepeats(variant)
    ensures HasParts(value) || HasParts(variant) ==> variant.Arr? == value.Arr? && variant.Obj? == value.Obj?
    decreases value
  {
    if HasParts(value) {
      var parts := VariantParts(variant, value);
      forall k | 0 <= k < |parts| ensures Equal(parts[k], Part(value, k)) && NoRepeats(parts[k]) {
        assert NoRepeats(Part(value, k));
        VariantIsEqual(parts[k], Part(value, k));
      }
      hide Variants, Equal, NoRepeats;
      EqualParts(value, parts);
    }
  }

  lemma VariantParts(variant: Json, value: Json) returns (parts: seq<Json>)
    requires HasParts(value) && variant in Variants(value)
    ensures |parts| == Count(value) && variant == WithParts(value, parts)
    ensures forall k :: 0 <= k < |parts| ==> parts[k] in Variants(Part(value, k))
  {
    parts :| parts in Choices(value, 0) && variant == WithParts(value, parts);
    hide Variants, WithParts;
    ChoicesAre(value, 0, parts);
    forall k | 0 <= k < |parts| ensures parts[k] in Variants(Part(value, k)) {
      assert ChosenAt(value, 0, parts, k);
    }
  }

  lemma EqualParts(value: Json, parts: seq<Json>)
    requires HasParts(value) && NoRepeats(value) && |parts| == Count(value)
    requires forall k :: 0 <= k < |parts| ==> Equal(parts[k], Part(value, k)) && NoRepeats(parts[k])
    ensures Equal(WithParts(value, parts), value) && NoRepeats(WithParts(value, parts))
  {
    if value.Obj? {
      var made := WithParts(value, parts);
      forall k | 0 <= k < |parts|
        ensures Has(value, made.fields[k].name)
        ensures Equal(made.fields[k].value, Get(value, made.fields[k].name).value)
      {
        FieldOnce(value, k);
      }
      forall k | 0 <= k < |parts| ensures Has(made, value.fields[k].name) {
        assert made.fields[k].name == value.fields[k].name;
      }
    }
  }

  // Whatever equals a value but for booleans is one of its variants.
  lemma {:induction false} SomeVariant(left: Json, right: Json) returns (variant: Json)
    requires NoRepeats(left) && NoRepeats(right) && Equal(left, right)
    ensures variant in Variants(right) && JsonEqual(left, variant)
    decreases right
  {
    hide Variants, JsonEqual, Equal, NoRepeats, Counterpart, Part;
    if HasParts(right) {
      var parts: seq<Json> := [];
      while |parts| < Count(right)
        invariant |parts| <= Count(right)
        invariant forall k :: 0 <= k < |parts| ==> parts[k] in Variants(Part(right, k))
        invariant forall k :: 0 <= k < |parts| ==> JsonEqual(Counterpart(left, right, k), parts[k])
      {
        var k := |parts|;
        CounterpartIsEqual(left, right, k);
        var part := SomeVariant(Counterpart(left, right, k), Part(right, k));
        parts := parts + [part];
      }
      variant := WithParts(right, parts);
      VariantOfParts(right, parts);
      PartsMakeEqual(left, right, parts);
    } else {
      variant := ScalarVariant(left, right);
    }
  }

  lemma ScalarVariant(left: Json, right: Json) returns (variant: Json)
    requires !HasParts(right) && Equal(left, right)
    ensures variant in Variants(right) && JsonEqual(left, variant)
  {
    if left.Bool? {
      variant := Bool(Numeric(right) == Some(1.0));
    } else {
      variant := if right.Bool? then Int(if right.b then 1 else 0) else right;
    }
  }

  lemma VariantOfParts(value: Json, parts: seq<Json>)
    requires HasParts(value) && |parts| == Count(value)
    requires forall k :: 0 <= k < |parts| ==> parts[k] in Variants(Part(value, k))
    ensures WithParts(value, parts) in Variants(value)
  {
    ChoicesAre(value, 0, parts);
    hide Choices, WithParts, Part;
  }

  // What stands in one value where the other has its k-th part.
  function Counterpart(left: Json, right: Json, k: nat): Json
    requires HasParts(right) && Equal(left, right) && k < Count(right)
  {
    if right.Arr? then left.items[k] else Get(left, right.fields[k].name).value
  }

  lemma CounterpartIsEqual(left: Json, right: Json, k: nat)
    requires HasParts(right) && Equal(left, right) && k < Count(right) && NoRepeats(left) && NoRepeats(right)
    ensures Equal(Counterpart(left, right, k), Part(right, k))
    ensures NoRepeats(Counterpart(left, right, k)) && NoRepeats(Part(right, k))
  {
    if right.Obj? {
      var name := right.fields[k].name;
      var i :| 0 <= i < |left.fields| && left.fields[i].name == name;
      FieldOnce(left, i);
      FieldOnce(right, k);
    }
  }

  lemma PartsMakeEqual(left: Json, right: Json, parts: seq<Json>)
    requires HasParts(right) && Equal(left, right) && NoRepeats(left) && NoRepeats(right) && |parts| == Count(right)
    requires forall k :: 0 <= k < |parts| ==> JsonEqual(Counterpart(left, right, k), parts[k])
    ensures JsonEqual(left, WithParts(right, parts))
  {
    if right.Obj? {
      ObjectsMakeEqual(left, right, parts);
    }
  }

  lemma ObjectsMakeEqual(left: Json, right: Json, parts: seq<Json>)
    requires right.Obj? && Equal(left, right) && NoRepeats(left) && |parts| == Count(right)
    requires forall k :: 0 <= k < |parts| ==> JsonEqual(Counterpart(left, right, k), parts[k])
    ensures JsonEqual(left, WithParts(right, parts))
  {
    hide NoRepeats, JsonEqual, Counterpart;
    var variant := WithParts(right, parts);
    forall i | 0 <= i < |left.fields|
      ensures Has(variant, left.fields[i].name)
      ensures JsonEqual(left.fields[i].value, Get(variant, left.fields[i].name).value)
    {
      FieldMadeEqual(left, right, parts, i);
    }
    forall k | 0 <= k < |variant.fields| ensures Has(left, variant.fields[k].name) {
      assert variant.fields[k].name == right.fields[k].name;
    }
    hide Equal, WithParts;
    FieldByField(left, variant);
  }

  lemma FieldByField(left: Json, right: Json)
    requires left.Obj? && right.Obj?
    requires forall k :: 0 <= k < |left.fields| ==>
      Has(right, left.fields[k].name) && JsonEqual(left.fields[k].value, Get(right, left.fields[k].name).value)
    requires forall k :: 0 <= k < |right.fields| ==> Has(left, right.fields[k].name)
    ensures JsonEqual(left, right)
  {
  }

  lemma FieldMadeEqual(left: Json, right: Json, parts: seq<Json>, i: nat)
    requires right.Obj? && Equal(left, right) && NoRepeats(left) && |parts| == Count(right) && i < |left.fields|
    requires forall k :: 0 <= k < |parts| ==> JsonEqual(Counterpart(left, right, k), parts[k])
    ensures var variant, name := WithParts(right, parts), left.fields[i].name;
      Has(variant, name) && JsonEqual(left.fields[i].value, Get(variant, name).value)
  {
    hide NoRepeats, JsonEqual;
    var variant, name := WithParts(right, parts), left.fields[i].name;
    assert Has(right, name);
    hide Equal;
    var there :| 0 <= there < |right.fields| && right.fields[there].name == name;
    assert variant.fields[there].name == name;
    FieldOnce(left, i);
    var k := Found(variant, name);
    assert variant.fields[k] == Field(right.fields[k].name, parts[k]);
    assert Counterpart(left, right, k) == left.fields[i].value;
  }

  lemma Found(value: Json, name: string) returns (k: nat)
    requires value.Obj? && Has(value, name)
    ensures k < |value.fields| && value.fields[k] == Field(name, Get(value, name).value)
  {
    var found := Get(value, name).value;
    k :| 0 <= k < |value.fields| && value.fields[k] == Field(name, found);
  }

  lemma {:induction false} JsonEqualIsTransitive(a: Json, b: Json, c: Json)
    requires JsonEqual(a, b) && JsonEqual(b, c)
    ensures JsonEqual(a, c)
    decreases a
  {
    match a
    case Arr(items) =>
      forall k | 0 <= k < |items| ensures JsonEqual(items[k], c.items[k]) {
        JsonEqualIsTransitive(items[k], b.items[k], c.items[k]);
      }
    case Obj(fields) =>
      forall k | 0 <= k < |fields|
        ensures Has(c, fields[k].name) && JsonEqual(fields[k].value, Get(c, fields[k].name).value)
      {
        var middle := Get(b, fields[k].name).value;
        assert Field(fields[k].name, middle) in b.fields;
        JsonEqualIsTransitive(fields[k].value, middle, Get(c, fields[k].name).value);
      }
      forall k | 0 <= k < |c.fields| ensures Has(a, c.fields[k].name) {
        assert Has(b, c.fields[k].name);
      }
    case _ =>
  }

  // At the top of a value, the comparison behind `enum` does tell booleans apart.
  function VariantsBelow(value: Json): set<Json> {
    if HasParts(value) then Variants(value) else {value}
  }

  predicate Lists(candidates: seq<Json>, value: Json) {
    exists k :: 0 <= k < |candidates| && JsonEqual(value, candidates[k])
  }

  // With every candidate, all its variants are listed too.
  predicate ListsAllVariants(candidates: seq<Json>) {
    forall k :: 0 <= k < |candidates| ==> forall value :: value in VariantsBelow(candidates[k]) ==>
      Lists(candidates, value)
  }

  ghost predicate AdmitsWhatItLists(allowed: Json)
    requires allowed.Arr?
  {
    forall payload :: NoRepeats(payload) ==>
      (ValidatePayload(payload, Obj([Field("enum", allowed)])) == Fits(payload) <==> Lists(allowed.items, payload))
  }

  // A schema that is just an enumeration admits what the standard says exactly if with a value below
  // whose top there is a boolean, zero or one it also lists the ones the other way round.
  lemma LoneEnumIsStandardExactly(allowed: Json)
    requires allowed.Arr? && allowed.items != [] && NoRepeats(allowed)
    ensures AdmitsWhatItLists(allowed) <==> ListsAllVariants(allowed.items)
  {
    if AdmitsWhatItLists(allowed) {
      forall k, value | 0 <= k < |allowed.items| && value in VariantsBelow(allowed.items[k])
        ensures Lists(allowed.items, value)
      {
        VariantIsAdmitted(allowed, k, value);
      }
    }
    if ListsAllVariants(allowed.items) {
      forall payload | NoRepeats(payload)
        ensures ValidatePayload(payload, Obj([Field("enum", allowed)])) == Fits(payload) <==>
          Lists(allowed.items, payload)
      {
        OnlyEnum(allowed, payload);
        if Lists(allowed.items, payload) {
          ListedIsAdmitted(allowed, payload);
        }
        if EnumAdmits(payload, Some(allowed)) {
          AdmittedIsListed(allowed, payload);
        }
      }
    }
  }

  lemma VariantIsAdmitted(allowed: Json, k: nat, value: Json)
    requires allowed.Arr? && NoRepeats(allowed) && k < |allowed.items| && value in VariantsBelow(allowed.items[k])
    ensures NoRepeats(value) && ValidatePayload(value, Obj([Field("enum", allowed)])) == Fits(value)
  {
    hide ValidatePayload;
    var candidate := allowed.items[k];
    VariantOfItself(candidate);
    VariantIsEqual(value, candidate);
    assert SameJsonValue(value, candidate);
    OnlyEnum(allowed, value);
  }

  lemma VariantOfItself(value: Json)
    ensures !HasParts(value) ==> value in Variants(value)
  {
  }

  lemma ListedIsAdmitted(allowed: Json, payload: Json)
    requires allowed.Arr? && Lists(allowed.items, payload)
    ensures EnumAdmits(payload, Some(allowed))
  {
    var k :| 0 <= k < |allowed.items| && JsonEqual(payload, allowed.items[k]);
    EnumEqualityIsLooser(payload, allowed.items[k]);
  }

  lemma AdmittedIsListed(allowed: Json, payload: Json)
    requires allowed.Arr? && allowed.items != [] && NoRepeats(allowed) && NoRepeats(payload)
    requires EnumAdmits(payload, Some(allowed)) && ListsAllVariants(allowed.items)
    ensures Lists(allowed.items, payload)
  {
    var k :| 0 <= k < |allowed.items| && SameJsonValue(payload, allowed.items[k]);
    var candidate := allowed.items[k];
    if HasParts(candidate) {
      var variant := SomeVariant(payload, candidate);
      assert Lists(allowed.items, variant);
      var j :| 0 <= j < |allowed.items| && JsonEqual(variant, allowed.items[j]);
      JsonEqualIsTransitive(payload, variant, allowed.items[j]);
    } else {
      assert JsonEqual(payload, candidate);
    }
  }
}
