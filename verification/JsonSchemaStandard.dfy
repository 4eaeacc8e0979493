/**
 * The keywords of JSON Schema 2020-12 spelled out, one level of a schema at a time: what each says about an
 * instance (Core sections 10.2.1 and 10.3, Validation section 6), and which definitions the subset supports. The
 * recursive meanings of the other modules are shown to satisfy these equations, which determine them.
 */
module JsonSchemaStandard {
  import opened Options
  import opened JsonValues
  import opened JsonSchema
  import opened JsonSchemaDefinition
  import opened JsonSchemaStrict
  import Meaning = JsonSchemaMeaning

  lemma Spelling()
    ensures Name(Type) == "type" && Name(Enum) == "enum"
    ensures Name(AllOf) == "allOf" && Name(AnyOf) == "anyOf" && Name(OneOf) == "oneOf" && Name(Not) == "not"
    ensures Name(Required) == "required" && Name(Properties) == "properties" && Name(Items) == "items"
    ensures Name(AdditionalProperties) == "additionalProperties"
    ensures Name(MinItems) == "minItems" && Name(MaxItems) == "maxItems"
    ensures Name(MinLength) == "minLength" && Name(MaxLength) == "maxLength"
    ensures Name(Minimum) == "minimum" && Name(Maximum) == "maximum"
  {
  }

  // ---------------------------------------------------------- type and enum

  function Whole(k: int): Json {
    Num(Finite(k as real))
  }

  /** Section 6.1.1 of the Validation specification. */
  ghost predicate OfType(v: Json, t: Json) {
    || (t == Str("null") && v.Null?)
    || (t == Str("boolean") && v.Bool?)
    || (t == Str("string") && v.Str?)
    || (t == Str("array") && v.Arr?)
    || (t == Str("object") && v.Obj?)
    || (t == Str("number") && v.Num?)
    || (t == Str("integer") && exists k: int :: v == Whole(k))
  }

  ghost predicate TypeHolds(v: Json, fields: seq<Field>) {
    match Get(fields, "type")
    case None => true
    case Some(Arr(ts)) => exists t :: t in ts && OfType(v, t)
    case Some(t) => OfType(v, t)
  }

  ghost predicate EnumHolds(v: Json, fields: seq<Field>) {
    match Get(fields, "enum")
    case None => true
    case Some(Arr(values)) => v in values
    case _ => false
  }

  lemma OfTypeIs(v: Json, t: Json)
    ensures OfType(v, t) <==> t.Str? && IsOfType(v, t.s)
  {
    if v.Num? && v.n.Finite? {
      assert v.n.r == v.n.r.Floor as real ==> v == Whole(v.n.r.Floor);
    }
    assert "boolean"[0] == 'b' && "integer"[0] == 'i' && "number"[0] == 'n' && "null"[1] == 'u' && "number"[2] == 'm'
        && "null"[2] == 'l' && "string"[0] == 's' && "array"[0] == 'a' && "object"[0] == 'o';
  }

  lemma TypeIs(v: Json, schema: Json)
    requires schema.Obj?
    ensures Asserted(Type, v, schema) <==> TypeHolds(v, schema.fields)
  {
    hide OfType, IsOfType, Name;
    Spelling();
    forall t ensures OfType(v, t) <==> t.Str? && IsOfType(v, t.s) { OfTypeIs(v, t); }
    match Get(schema.fields, "type")
    case Some(Arr(ts)) =>
      if TypeHolds(v, schema.fields) {
        var t :| t in ts && OfType(v, t);
        assert Str(t.s) in ts && IsOfType(v, t.s);
      }
    case _ =>
  }

  /** `===` holds of equal scalars only: never of arrays, of objects, or of NaN. */
  lemma ScalarsOnly(a: Json, b: Json)
    ensures SameValue(a, b) <==>
            || (a.Null? && b.Null?) || (a.Bool? && b == a) || (a.Str? && b == a)
            || (a.Num? && !a.n.NaN? && b == a)
  {
  }

  lemma EnumIs(v: Json, schema: Json)
    requires schema.Obj?
    ensures Asserted(Enum, v, schema) <==> EnumHolds(v, schema.fields)
  {
    hide Name;
    Spelling();
  }

  // -------------------------------------------------------- members of objects

  ghost predicate RequiredHolds(v: Json, fields: seq<Field>) {
    v.Obj? ==>
      match Get(fields, "required")
      case None => true
      case Some(Arr(keys)) => forall key | Str(key) in keys :: exists m :: m in v.fields && m.key == key
      case _ => false
  }

  /** `false` leaves room for the declared properties only. */
  ghost predicate ClosedHolds(v: Json, fields: seq<Field>) {
    v.Obj? && Get(fields, "additionalProperties") == Some(Bool(false)) ==>
      forall m | m in v.fields ::
        Get(fields, "properties").Some? && Get(fields, "properties").value.Obj?
        && exists p :: p in Get(fields, "properties").value.fields && p.key == m.key
  }

  lemma MembersAre(v: Json, schema: Json)
    requires schema.Obj?
    ensures Asserted(Required, v, schema) <==> RequiredHolds(v, schema.fields)
    ensures Asserted(AdditionalProperties, v, schema) <==> ClosedHolds(v, schema.fields)
  {
    hide Name;
    Spelling();
  }

  // ------------------------------------------------------------------- bounds

  /** The code units of a string, as UTF-16 encodes it (section 3.9 of the Unicode standard). */
  function Utf16(s: string): seq<int> {
    if s == [] then []
    else
      var c := s[0] as int;
      (if c >= 0x10000 then [0xD800 + (c - 0x10000) / 0x400, 0xDC00 + (c - 0x10000) % 0x400] else [c])
      + Utf16(s[1..])
  }

  lemma {:induction false} LengthIsUtf16(s: string)
    ensures Utf16Length(s) == |Utf16(s)|
  {
    if s != [] {
      LengthIsUtf16(s[1..]);
    }
  }

  predicate FiniteBound(bound: Json) {
    bound.Num? && bound.n.Finite?
  }

  /** Sections 6.3 and 6.4, for a length or a number of elements. */
  predicate CountWithin(count: int, low: Option<Json>, high: Option<Json>) {
    && (low.Some? ==> FiniteBound(low.value) && low.value.n.r <= count as real)
    && (high.Some? ==> FiniteBound(high.value) && count as real <= high.value.n.r)
  }

  predicate NotBelow(n: Number, low: real) {
    match n case Finite(x) => low <= x case NaN => true case Infinite(negative) => !negative
  }

  predicate NotAbove(n: Number, high: real) {
    match n case Finite(x) => x <= high case NaN => true case Infinite(negative) => negative
  }

  /** Section 6.2. What is not a number has no order, so no bound excludes it. */
  predicate NumberWithin(n: Number, low: Option<Json>, high: Option<Json>) {
    && (low.Some? ==> FiniteBound(low.value) && NotBelow(n, low.value.n.r))
    && (high.Some? ==> FiniteBound(high.value) && NotAbove(n, high.value.n.r))
  }

  ghost predicate BoundsHold(v: Json, fields: seq<Field>) {
    match v
    case Arr(elems) => CountWithin(|elems|, Get(fields, "minItems"), Get(fields, "maxItems"))
    case Str(s) => CountWithin(|Utf16(s)|, Get(fields, "minLength"), Get(fields, "maxLength"))
    case Num(n) => NumberWithin(n, Get(fields, "minimum"), Get(fields, "maximum"))
    case _ => true
  }

  lemma ElementBoundsAre(v: Json, schema: Json)
    requires schema.Obj?
    ensures Asserted(MinItems, v, schema) && Asserted(MaxItems, v, schema) <==>
            (v.Arr? ==> CountWithin(|v.elems|, Get(schema.fields, "minItems"), Get(schema.fields, "maxItems")))
  {
    hide Name, Get;
    Spelling();
  }

  lemma LengthBoundsAre(v: Json, schema: Json)
    requires schema.Obj?
    ensures Asserted(MinLength, v, schema) && Asserted(MaxLength, v, schema) <==>
            (v.Str? ==> CountWithin(|Utf16(v.s)|, Get(schema.fields, "minLength"), Get(schema.fields, "maxLength")))
  {
    hide Name, Utf16, Utf16Length, Get;
    Spelling();
    if v.Str? {
      LengthIsUtf16(v.s);
    }
  }

  lemma NumberBoundsAre(v: Json, schema: Json)
    requires schema.Obj?
    ensures Asserted(Minimum, v, schema) && Asserted(Maximum, v, schema) <==>
            (v.Num? ==> NumberWithin(v.n, Get(schema.fields, "minimum"), Get(schema.fields, "maximum")))
  {
    hide Name, Get;
    Spelling();
  }

  lemma BoundsAre(v: Json, schema: Json)
    requires schema.Obj?
    ensures (&& Asserted(MinItems, v, schema) && Asserted(MaxItems, v, schema)
             && Asserted(MinLength, v, schema) && Asserted(MaxLength, v, schema)
             && Asserted(Minimum, v, schema) && Asserted(Maximum, v, schema))
            <==> BoundsHold(v, schema.fields)
  {
    hide Name, Utf16, Utf16Length, Get, Asserted, CountWithin, NumberWithin;
    ElementBoundsAre(v, schema);
    LengthBoundsAre(v, schema);
    NumberBoundsAre(v, schema);
  }

  // --------------------------------------------------------------- subschemas

  /** Section 10.2.1 of the Core specification. */
  ghost predicate CombinatorsSpelled(v: Json, schema: Json)
    requires schema.Obj?
  {
    var f := schema.fields;
    && (Get(f, "allOf").Some? ==> EachHolds(v, Schemas(f, "allOf")))
    && (Get(f, "anyOf").Some? ==> SomeHolds(v, Schemas(f, "anyOf")))
    && (Get(f, "oneOf").Some? ==> JustOneHolds(v, Schemas(f, "oneOf")))
    && (Get(f, "not").Some? ==> !Holds(v, Get(f, "not").value))
  }

  ghost predicate Holds(v: Json, b: Json) {
    b.Obj? && Strict(v, b)
  }

  ghost predicate EachHolds(v: Json, bs: seq<Json>) {
    forall b | b in bs :: Holds(v, b)
  }

  ghost predicate SomeHolds(v: Json, bs: seq<Json>) {
    exists b :: b in bs && Holds(v, b)
  }

  ghost predicate JustOneHolds(v: Json, bs: seq<Json>) {
    exists i :: 0 <= i < |bs| && Holds(v, bs[i]) && forall j | 0 <= j < |bs| && Holds(v, bs[j]) :: j == i
  }

  function Schemas(fields: seq<Field>, keyword: string): seq<Json> {
    match Get(fields, keyword) case Some(Arr(bs)) => bs case _ => []
  }

  /** Section 10.3 of the Core specification. */
  ghost predicate ChildrenSpelled(v: Json, schema: Json)
    requires schema.Obj?
  {
    var f := schema.fields;
    && (v.Arr? && Get(f, "items").Some? ==>
          forall e | e in v.elems :: Get(f, "items").value.Obj? && Strict(e, Get(f, "items").value))
    && (v.Obj? && Get(f, "properties").Some? && Get(f, "properties").value.Obj? ==>
          forall p | p in Get(f, "properties").value.fields :: MemberHolds(v.fields, p))
  }

  /** A declared property constrains a record that has a member of that name. */
  ghost predicate MemberHolds(record: seq<Field>, p: Field) {
    Get(record, p.key).Some? ==> p.value.Obj? && Strict(Get(record, p.key).value, p.value)
  }

  lemma {:induction false} ListVerdicts(v: Json, schema: Json, branches: seq<Json>)
    requires forall b :: b in branches ==> b < schema
    ensures |ListStrict(v, schema, branches)| == |branches|
    ensures forall i | 0 <= i < |branches| ::
              ListStrict(v, schema, branches)[i] <==> branches[i].Obj? && Strict(v, branches[i])
    decreases |branches|
  {
    hide Strict;
    if branches != [] {
      var n := |branches| - 1;
      assert branches[n] in branches && forall b :: b in branches[..n] ==> b in branches;
      ListVerdicts(v, schema, branches[..n]);
    }
  }

  lemma {:induction false} ElementVerdicts(elems: seq<Json>, schema: Json, items: Json)
    requires items < schema
    ensures |ElementsStrict(elems, schema, items)| == |elems|
    ensures forall i | 0 <= i < |elems| ::
              ElementsStrict(elems, schema, items)[i] <==> items.Obj? && Strict(elems[i], items)
    decreases |elems|
  {
    hide Strict;
    if elems != [] {
      ElementVerdicts(elems[..|elems| - 1], schema, items);
    }
  }

  lemma MemberVerdict(record: seq<Field>, schema: Json, init: seq<Field>, p: Field)
    requires forall q :: q in init + [p] ==> q.value < schema
    requires forall q :: q in init ==> q.value < schema
    ensures PropertiesStrict(record, schema, init + [p])
         == PropertiesStrict(record, schema, init) + [MemberHolds(record, p)]
  {
    hide Strict, HasOwn, Find;
    assert (init + [p])[..|init|] == init && (init + [p])[|init|] == p;
  }

  lemma {:induction false} MemberVerdicts(record: seq<Field>, schema: Json, props: seq<Field>)
    requires forall p :: p in props ==> p.value < schema
    ensures |PropertiesStrict(record, schema, props)| == |props|
    ensures forall i | 0 <= i < |props| :: PropertiesStrict(record, schema, props)[i] <==> MemberHolds(record, props[i])
    decreases |props|
  {
    hide MemberHolds;
    if props != [] {
      hide PropertiesStrict;
      var n := |props| - 1;
      assert props == props[..n] + [props[n]];
      MemberVerdicts(record, schema, props[..n]);
      MemberVerdict(record, schema, props[..n], props[n]);
    }
  }

  lemma BranchVerdicts(v: Json, schema: Json, k: Keyword)
    requires schema.Obj?
    ensures var bs := Schemas(schema.fields, Name(k));
            && |BranchesStrict(v, schema, k)| == |bs|
            && (forall b :: b in bs ==> b < schema)
            && forall i | 0 <= i < |bs| :: BranchesStrict(v, schema, k)[i] <==> Holds(v, bs[i])
  {
    hide Strict, Name, ListStrict;
    match Declared(schema, k)
    case Some(Arr(bs)) => ListVerdicts(v, schema, bs);
    case _ =>
  }

  lemma VerdictsOf(v: Json, schema: Json, k: Keyword)
    requires schema.Obj?
    ensures Meaning.AllOf(BranchesStrict(v, schema, k)) <==> EachHolds(v, Schemas(schema.fields, Name(k)))
    ensures Meaning.AnyOf(BranchesStrict(v, schema, k)) <==> SomeHolds(v, Schemas(schema.fields, Name(k)))
    ensures Meaning.OneOf(BranchesStrict(v, schema, k)) <==> JustOneHolds(v, Schemas(schema.fields, Name(k)))
  {
    hide Holds, BranchesStrict, Name, Schemas;
    BranchVerdicts(v, schema, k);
    var bs := Schemas(schema.fields, Name(k));
    forall i | 0 <= i < |bs| ensures bs[i] in bs {
    }
  }

  lemma CombinatorsAre(v: Json, schema: Json)
    requires schema.Obj?
    ensures CombinatorsHold(v, schema) <==> CombinatorsSpelled(v, schema)
  {
    hide Strict, Name, BranchesStrict, Holds, Meaning.AllOf, Meaning.AnyOf, Meaning.OneOf, Schemas, Get;
    hide EachHolds, SomeHolds, JustOneHolds;
    Spelling();
    VerdictsOf(v, schema, AllOf);
    VerdictsOf(v, schema, AnyOf);
    VerdictsOf(v, schema, OneOf);
    if Declared(schema, Not).Some? {
      NotIs(v, schema);
    }
  }

  lemma NotIs(v: Json, schema: Json)
    requires schema.Obj? && Declared(schema, Not).Some?
    ensures ChildStrict(v, Declared(schema, Not).value) <==> Holds(v, Declared(schema, Not).value)
  {
    hide Strict, Name;
  }

  lemma AllOfElements(elems: seq<Json>, items: Json, verdicts: seq<bool>)
    requires |verdicts| == |elems|
    requires forall i | 0 <= i < |elems| :: verdicts[i] <==> items.Obj? && Strict(elems[i], items)
    ensures Meaning.AllOf(verdicts) <==> forall e | e in elems :: items.Obj? && Strict(e, items)
  {
    hide Strict;
    if Meaning.AllOf(verdicts) {
      forall e | e in elems ensures items.Obj? && Strict(e, items) {
        var i :| 0 <= i < |elems| && elems[i] == e;
        assert verdicts[i];
      }
    } else {
      var i :| 0 <= i < |verdicts| && !verdicts[i];
      assert elems[i] in elems;
    }
  }

  lemma AllOfMembers(record: seq<Field>, props: seq<Field>, verdicts: seq<bool>)
    requires |verdicts| == |props|
    requires forall i | 0 <= i < |props| :: verdicts[i] <==> MemberHolds(record, props[i])
    ensures Meaning.AllOf(verdicts) <==> forall p | p in props :: MemberHolds(record, p)
  {
    hide MemberHolds;
    if Meaning.AllOf(verdicts) {
      forall p | p in props ensures MemberHolds(record, p) {
        var i :| 0 <= i < |props| && props[i] == p;
        assert verdicts[i];
      }
    } else {
      var i :| 0 <= i < |verdicts| && !verdicts[i];
      assert props[i] in props;
    }
  }

  lemma ChildrenAre(v: Json, schema: Json)
    requires schema.Obj?
    ensures ChildrenHold(v, schema) <==> ChildrenSpelled(v, schema)
  {
    hide Strict, Name, ElementsStrict, PropertiesStrict, Get;
    Spelling();
    if v.Arr? && Declared(schema, Items).Some? {
      var items := Declared(schema, Items).value;
      ElementVerdicts(v.elems, schema, items);
      AllOfElements(v.elems, items, ElementsStrict(v.elems, schema, items));
    }
    if v.Obj? && Declared(schema, Properties).Some? {
      var props := DeclaredProperties(schema);
      MemberVerdicts(v.fields, schema, props);
      AllOfMembers(v.fields, props, PropertiesStrict(v.fields, schema, props));
    }
  }

  // ------------------------------------------------------------- main results

  /** The strict meaning is the meaning of 2020-12, keyword by keyword: this equation holds at every schema and
      every instance, and by it the meaning of a schema follows from those of its subschemas. */
  lemma StrictIsTheStandard(v: Json, schema: Json)
    requires schema.Obj?
    ensures Strict(v, schema) <==>
            (&& TypeHolds(v, schema.fields) && EnumHolds(v, schema.fields)
             && RequiredHolds(v, schema.fields) && ClosedHolds(v, schema.fields) && BoundsHold(v, schema.fields)
             && CombinatorsSpelled(v, schema) && ChildrenSpelled(v, schema))
  {
    hide Asserted, ApplicatorsHold, CombinatorsHold, ChildrenHold, TypeHolds, EnumHolds, RequiredHolds, ClosedHolds;
    hide BoundsHold, CombinatorsSpelled, ChildrenSpelled;
    TypeIs(v, schema);
    EnumIs(v, schema);
    MembersAre(v, schema);
    BoundsAre(v, schema);
    CombinatorsAre(v, schema);
    ChildrenAre(v, schema);
    ApplicatorsSplit(v, schema);
    ApplicatorsAssertNothing(v, schema);
    if TypeHolds(v, schema.fields) && EnumHolds(v, schema.fields) && RequiredHolds(v, schema.fields)
       && ClosedHolds(v, schema.fields) && BoundsHold(v, schema.fields) {
      forall k: Keyword ensures Asserted(k, v, schema) {
        match k
        case Type => case Enum => case Required => case AdditionalProperties =>
        case MinItems => case MaxItems => case MinLength => case MaxLength => case Minimum => case Maximum =>
        case AllOf => case AnyOf => case OneOf => case Not => case Items => case Properties =>
      }
    }
  }

  // ------------------------------------------------- supported definitions

  /** Keywords that constrain something in 2020-12 or in an earlier draft and that the subset does not evaluate. */
  predicate Beyond(key: string) {
    || key in {"$ref", "$defs", "definitions", "$anchor", "$dynamicRef", "$dynamicAnchor"}
    || key in {"if", "then", "else", "const", "pattern", "format", "multipleOf"}
    || key in {"exclusiveMinimum", "exclusiveMaximum", "minProperties", "maxProperties"}
    || key in {"patternProperties", "propertyNames", "dependencies", "dependentRequired", "dependentSchemas"}
    || key in {"additionalItems", "prefixItems", "contains", "minContains", "maxContains", "uniqueItems"}
    || key in {"unevaluatedItems", "unevaluatedProperties", "contentEncoding", "contentMediaType", "contentSchema"}
  }

  /** An unsupported keyword is reported, and nothing else is reported as one by its name. */
  lemma {:induction false} BeyondIsReported(fields: seq<Field>, path: Path, key: string)
    ensures Issue(path + [Property(key)], key, Unsupported) in UnsupportedIssues(fields, path) <==>
            Beyond(key) && exists m :: m in fields && m.key == key
    decreases |fields|
  {
    BeyondIsUnsupported(key);
    hide Beyond;
    if fields != [] {
      var n := |fields| - 1;
      BeyondIsReported(fields[..n], path, key);
      assert fields == fields[..n] + [fields[n]];
    }
  }

  lemma BeyondIsUnsupported(key: string)
    ensures key in UNSUPPORTED_KEYWORDS <==> Beyond(key)
  {
  }

  /** The issue of a node that is nested too deep, and which malformed arguments are reported as unsupported. */
  lemma IssuesSpelled(schema: Json, path: Path, depth: nat)
    requires schema.Obj?
    ensures depth > 64 ==> DefinitionIssues(schema, path, depth) == [Issue(path, "(depth)", Malformed)]
    ensures Get(schema.fields, "items").Some? && !Get(schema.fields, "items").value.Obj? ==>
              OneSchema(schema, Items, path, depth) == [Issue(path + [Property("items")], "items",
                if Get(schema.fields, "items").value.Arr? then Unsupported else Malformed)]
    ensures Get(schema.fields, "not").Some? && !Get(schema.fields, "not").value.Obj? ==>
              OneSchema(schema, Not, path, depth) == [Issue(path + [Property("not")], "not", Malformed)]
    ensures Get(schema.fields, "additionalProperties").Some?
            && !Get(schema.fields, "additionalProperties").value.Bool? ==>
              AdditionalIssues(schema, path) == [
                Issue(path + [Property("additionalProperties")], "additionalProperties",
                      if Get(schema.fields, "additionalProperties").value.Obj? then Unsupported else Malformed)]
  {
    Spelling();
    hide Name, UnsupportedIssues, TypeIssues, EnumIssues, SubschemaIssues, ShapeIssues;
  }

  predicate NamesType(n: Json) {
    || n == Str("string") || n == Str("number") || n == Str("integer") || n == Str("boolean")
    || n == Str("object") || n == Str("array") || n == Str("null")
  }

  /** One of the scalar values that `===` compares as the standard does. */
  predicate Scalar(v: Json) {
    v.Null? || v.Bool? || v.Str? || (v.Num? && v.n.Finite?)
  }

  ghost predicate IsNat(v: Json) {
    exists k: int :: k >= 0 && v == Whole(k)
  }

  ghost predicate AssertionsSupported(fields: seq<Field>) {
    && (match Get(fields, "type")
        case None => true
        case Some(Arr(ns)) => ns != [] && forall n | n in ns :: NamesType(n)
        case Some(n) => NamesType(n))
    && (match Get(fields, "enum")
        case None => true
        case Some(Arr(vs)) => vs != [] && forall v | v in vs :: Scalar(v)
        case _ => false)
    && (match Get(fields, "required")
        case None => true
        case Some(Arr(ks)) => forall k | k in ks :: k.Str?
        case _ => false)
  }

  ghost predicate ShapesSupported(fields: seq<Field>) {
    && (Get(fields, "additionalProperties").Some? ==> Get(fields, "additionalProperties").value.Bool?)
    && (Get(fields, "minItems").Some? ==> IsNat(Get(fields, "minItems").value))
    && (Get(fields, "maxItems").Some? ==> IsNat(Get(fields, "maxItems").value))
    && (Get(fields, "minLength").Some? ==> IsNat(Get(fields, "minLength").value))
    && (Get(fields, "maxLength").Some? ==> IsNat(Get(fields, "maxLength").value))
    && (Get(fields, "minimum").Some? ==> FiniteBound(Get(fields, "minimum").value))
    && (Get(fields, "maximum").Some? ==> FiniteBound(Get(fields, "maximum").value))
  }

  /** The keyword is absent, or a non-empty array of supported schemas. */
  ghost predicate ArraySupported(schema: Json, keyword: string, depth: nat, limit: nat)
    requires schema.Obj?
  {
    match Get(schema.fields, keyword)
    case None => true
    case Some(Arr(bs)) => bs != [] && forall b | b in bs :: b.Obj? && WellFormed(b, depth + 1, limit)
    case _ => false
  }

  ghost predicate ChildSupported(schema: Json, keyword: string, depth: nat, limit: nat)
    requires schema.Obj?
  {
    match Get(schema.fields, keyword)
    case None => true
    case Some(b) => b.Obj? && WellFormed(b, depth + 1, limit)
  }

  ghost predicate PropertiesSupported(schema: Json, depth: nat, limit: nat)
    requires schema.Obj?
  {
    match Get(schema.fields, "properties")
    case None => true
    case Some(Obj(ps)) => forall p | p in ps :: p.value.Obj? && WellFormed(p.value, depth + 1, limit)
    case _ => false
  }

  lemma TypesAre(schema: Json)
    requires schema.Obj?
    ensures WellFormedType(schema) && WellFormedEnum(schema) && WellFormedRequired(schema)
            <==> AssertionsSupported(schema.fields)
  {
    Spelling();
    forall n: Json ensures KnownType(n) <==> NamesType(n) {
    }
    hide Name, KnownType, NamesType, Get;
  }

  lemma CountIsNat(v: Json)
    ensures IsCount(v) <==> IsNat(v)
  {
    if IsCount(v) {
      assert v == Whole(v.n.r.Floor);
    }
  }

  lemma ShapesAre(schema: Json)
    requires schema.Obj?
    ensures WellFormedShape(schema) <==> ShapesSupported(schema.fields)
  {
    Spelling();
    forall v: Json ensures IsCount(v) <==> IsNat(v) { CountIsNat(v); }
    hide Name, IsNat, IsCount, Get;
  }

  lemma {:induction false} EachBranch(schema: Json, branches: seq<Json>, depth: nat, limit: nat)
    requires forall b :: b in branches ==> b < schema
    ensures AllWellFormed(schema, branches, depth, limit)
            <==> forall b | b in branches :: b.Obj? && WellFormed(b, depth + 1, limit)
    decreases |branches|
  {
    hide WellFormed;
    if branches != [] {
      var n := |branches| - 1;
      assert branches[n] in branches && forall b :: b in branches[..n] ==> b in branches;
      EachBranch(schema, branches[..n], depth, limit);
      assert branches == branches[..n] + [branches[n]];
    }
  }

  lemma {:induction false} EachProperty(schema: Json, props: seq<Field>, depth: nat, limit: nat)
    requires forall p :: p in props ==> p.value < schema
    ensures AllPropertiesWellFormed(schema, props, depth, limit)
            <==> forall p | p in props :: p.value.Obj? && WellFormed(p.value, depth + 1, limit)
    decreases |props|
  {
    hide WellFormed;
    if props != [] {
      var n := |props| - 1;
      EachProperty(schema, props[..n], depth, limit);
      assert props == props[..n] + [props[n]];
    }
  }

  lemma ArraysAre(schema: Json, k: Keyword, depth: nat, limit: nat)
    requires schema.Obj?
    ensures WellFormedBranches(schema, k, depth, limit) <==> ArraySupported(schema, Name(k), depth, limit)
  {
    hide Name, WellFormed, AllWellFormed;
    match Declared(schema, k)
    case Some(Arr(bs)) => EachBranch(schema, bs, depth, limit);
    case _ =>
  }

  lemma ChildIs(schema: Json, k: Keyword, depth: nat, limit: nat)
    requires schema.Obj?
    ensures WellFormedChild(schema, k, depth, limit) <==> ChildSupported(schema, Name(k), depth, limit)
  {
    hide Name, WellFormed;
  }

  lemma PropertiesAre(schema: Json, depth: nat, limit: nat)
    requires schema.Obj?
    ensures WellFormedProperties(schema, depth, limit) <==> PropertiesSupported(schema, depth, limit)
  {
    hide Name, WellFormed, AllPropertiesWellFormed;
    Spelling();
    match Declared(schema, Properties)
    case Some(Obj(ps)) => EachProperty(schema, ps, depth, limit);
    case _ =>
  }

  /** The definitions without issues, keyword by keyword: this equation holds at every schema, and by it what is
      supported follows from the subschemas. */
  lemma WellFormedIsSpelled(schema: Json, depth: nat, limit: nat)
    requires schema.Obj?
    ensures WellFormed(schema, depth, limit) <==>
            (&& depth <= limit
             && (forall m | m in schema.fields :: !Beyond(m.key))
             && AssertionsSupported(schema.fields) && ShapesSupported(schema.fields)
             && ArraySupported(schema, "allOf", depth, limit) && ArraySupported(schema, "anyOf", depth, limit)
             && ArraySupported(schema, "oneOf", depth, limit) && ChildSupported(schema, "not", depth, limit)
             && ChildSupported(schema, "items", depth, limit) && PropertiesSupported(schema, depth, limit))
  {
    hide Name, WellFormedType, WellFormedEnum, WellFormedRequired, WellFormedShape, WellFormedBranches, WellFormedChild;
    hide WellFormedProperties, AssertionsSupported, ShapesSupported, ArraySupported, ChildSupported;
    hide PropertiesSupported, Beyond;
    Spelling();
    forall m | m in schema.fields ensures m.key in UNSUPPORTED_KEYWORDS <==> Beyond(m.key) {
      BeyondIsUnsupported(m.key);
    }
    TypesAre(schema);
    ShapesAre(schema);
    ArraysAre(schema, AllOf, depth, limit);
    ArraysAre(schema, AnyOf, depth, limit);
    ArraysAre(schema, OneOf, depth, limit);
    ChildIs(schema, Not, depth, limit);
    ChildIs(schema, Items, depth, limit);
    PropertiesAre(schema, depth, limit);
  }
}
