/**
 * The companion definition checker of src/core/json-schema.ts: the issues it
 * reports, and the well-formed definitions it reports nothing about.
 */
module JsonSchemaDefinition {
  import opened Options
  import opened JsonValues
  import opened JsonSchema

  const KNOWN_TYPE_NAMES: set<string> := {"string", "number", "integer", "boolean", "object", "array", "null"}

  const UNSUPPORTED_KEYWORDS: set<string> := {
    "$ref", "$defs", "definitions", "$anchor", "$dynamicRef", "$dynamicAnchor", "if", "then", "else", "const",
    "pattern", "format", "patternProperties", "propertyNames", "additionalItems", "prefixItems", "contains",
    "minContains", "maxContains", "uniqueItems", "multipleOf", "exclusiveMinimum", "exclusiveMaximum",
    "minProperties", "maxProperties", "dependencies", "dependentRequired", "dependentSchemas",
    "unevaluatedItems", "unevaluatedProperties", "contentEncoding", "contentMediaType", "contentSchema"
  }

  datatype Kind = Malformed | Unsupported
  datatype Issue = Issue(path: Path, keyword: string, kind: Kind)

  // -------------------------------------------- the issue list, as a function

  function DefinitionIssues(schema: Json, path: Path, depth: nat): seq<Issue>
    requires schema.Obj?
    decreases schema, 3
  {
    if depth > MAX_DEFINITION_DEPTH then [Issue(path, "(depth)", Malformed)]
    else
      UnsupportedIssues(schema.fields, path)
      + TypeIssues(schema, path)
      + EnumIssues(schema, path)
      + SubschemaIssues(schema, path, depth)
      + ShapeIssues(schema, path)
  }

  /** The keywords whose values hold schemas, in the order the checker visits them. */
  function SubschemaIssues(schema: Json, path: Path, depth: nat): seq<Issue>
    requires schema.Obj?
    decreases schema, 2
  {
    ArrayOfSchemas(schema, AllOf, path, depth)
    + ArrayOfSchemas(schema, AnyOf, path, depth)
    + ArrayOfSchemas(schema, OneOf, path, depth)
    + OneSchema(schema, Not, path, depth)
    + RequiredIssues(schema, path)
    + PropertiesIssues(schema, path, depth)
    + OneSchema(schema, Items, path, depth)
  }

  function Issued(path: Path, k: Keyword, kind: Kind): seq<Issue> {
    [Issue(path + [Property(Name(k))], Name(k), kind)]
  }

  function UnsupportedIssues(fields: seq<Field>, path: Path): seq<Issue> {
    if fields == [] then []
    else
      var key := fields[|fields| - 1].key;
      UnsupportedIssues(fields[..|fields| - 1], path)
      + if key in UNSUPPORTED_KEYWORDS then [Issue(path + [Property(key)], key, Unsupported)] else []
  }

  function TypeIssues(schema: Json, path: Path): seq<Issue>
    requires schema.Obj?
  {
    match Declared(schema, Type)
    case None => []
    case Some(Arr(names)) => if names == [] then Issued(path, Type, Malformed) else TypeNameIssues(names, path)
    case Some(name) => if KnownType(name) then [] else Issued(path, Type, Malformed)
  }

  predicate KnownType(name: Json) {
    name.Str? && name.s in KNOWN_TYPE_NAMES
  }

  function TypeNameIssues(names: seq<Json>, path: Path): seq<Issue> {
    if names == [] then []
    else
      var i := |names| - 1;
      TypeNameIssues(names[..i], path)
      + if KnownType(names[i]) then [] else [Issue(path + [Property(Name(Type)), Index(i)], Name(Type), Malformed)]
  }

  /** Values that the validator's `===` compares as JSON Schema does. */
  predicate SupportedEnumValue(v: Json) {
    match v
    case Num(n) => n.Finite?
    case Arr(_) => false
    case Obj(_) => false
    case _ => true
  }

  function EnumIssues(schema: Json, path: Path): seq<Issue>
    requires schema.Obj?
  {
    match Declared(schema, Enum)
    case None => []
    case Some(Arr(allowed)) => if allowed == [] then Issued(path, Enum, Malformed) else EnumValueIssues(allowed, path)
    case _ => Issued(path, Enum, Malformed)
  }

  function EnumValueIssues(allowed: seq<Json>, path: Path): seq<Issue> {
    if allowed == [] then []
    else
      var i := |allowed| - 1;
      EnumValueIssues(allowed[..i], path)
      + if SupportedEnumValue(allowed[i]) then []
        else [Issue(path + [Property(Name(Enum)), Index(i)], Name(Enum), Unsupported)]
  }

  function ArrayOfSchemas(schema: Json, k: Keyword, path: Path, depth: nat): seq<Issue>
    requires schema.Obj?
    decreases schema, 1
  {
    match Declared(schema, k)
    case None => []
    case Some(Arr(branches)) =>
      if branches == [] then Issued(path, k, Malformed) else BranchIssues(schema, k, branches, path, depth)
    case _ => Issued(path, k, Malformed)
  }

  function BranchIssues(schema: Json, k: Keyword, branches: seq<Json>, path: Path, depth: nat): seq<Issue>
    requires forall b :: b in branches ==> b < schema
    decreases schema, 0, |branches|
  {
    if branches == [] then []
    else
      var i := |branches| - 1;
      assert branches[i] in branches && forall b :: b in branches[..i] ==> b in branches;
      var at := path + [Property(Name(k)), Index(i)];
      BranchIssues(schema, k, branches[..i], path, depth)
      + if branches[i].Obj? then DefinitionIssues(branches[i], at, depth + 1) else [Issue(at, Name(k), Malformed)]
  }

  /** `not` and `items`; only `items` tells its tuple form apart. */
  function OneSchema(schema: Json, k: Keyword, path: Path, depth: nat): seq<Issue>
    requires schema.Obj?
    decreases schema, 1
  {
    match Declared(schema, k)
    case None => []
    case Some(Obj(fields)) => DefinitionIssues(Obj(fields), path + [Property(Name(k))], depth + 1)
    case Some(other) => Issued(path, k, if k == Items && other.Arr? then Unsupported else Malformed)
  }

  predicate AllStrings(elems: seq<Json>) {
    forall e | e in elems :: e.Str?
  }

  function RequiredIssues(schema: Json, path: Path): seq<Issue>
    requires schema.Obj?
  {
    match Declared(schema, Required)
    case None => []
    case Some(Arr(keys)) => if AllStrings(keys) then [] else Issued(path, Required, Malformed)
    case _ => Issued(path, Required, Malformed)
  }

  function PropertiesIssues(schema: Json, path: Path, depth: nat): seq<Issue>
    requires schema.Obj?
    decreases schema, 1
  {
    match Declared(schema, Properties)
    case None => []
    case Some(Obj(props)) => PropertyIssues(schema, props, path, depth)
    case _ => Issued(path, Properties, Malformed)
  }

  function PropertyIssues(schema: Json, props: seq<Field>, path: Path, depth: nat): seq<Issue>
    requires forall p :: p in props ==> p.value < schema
    decreases schema, 0, |props|
  {
    if props == [] then []
    else
      var p := props[|props| - 1];
      var at := path + [Property(Name(Properties)), Property(p.key)];
      PropertyIssues(schema, props[..|props| - 1], path, depth)
      + if p.value.Obj? then DefinitionIssues(p.value, at, depth + 1) else [Issue(at, Name(Properties), Malformed)]
  }

  /** The keywords whose values are booleans and numbers. */
  function ShapeIssues(schema: Json, path: Path): seq<Issue>
    requires schema.Obj?
  {
    AdditionalIssues(schema, path)
    + CountIssues(schema, MinItems, path) + CountIssues(schema, MaxItems, path)
    + CountIssues(schema, MinLength, path) + CountIssues(schema, MaxLength, path)
    + BoundIssues(schema, Minimum, path) + BoundIssues(schema, Maximum, path)
  }

  function AdditionalIssues(schema: Json, path: Path): seq<Issue>
    requires schema.Obj?
  {
    match Declared(schema, AdditionalProperties)
    case None => []
    case Some(Bool(_)) => []
    case Some(other) => Issued(path, AdditionalProperties, if other.Obj? then Unsupported else Malformed)
  }

  /** A non-negative integer. */
  predicate IsCount(v: Json) {
    v.Num? && IsInteger(v.n) && v.n.r >= 0.0
  }

  function CountIssues(schema: Json, k: Keyword, path: Path): seq<Issue>
    requires schema.Obj?
  {
    var declared := Declared(schema, k);
    if declared.Some? && !IsCount(declared.value) then Issued(path, k, Malformed) else []
  }

  predicate IsFiniteNumber(v: Json) {
    v.Num? && v.n.Finite?
  }

  function BoundIssues(schema: Json, k: Keyword, path: Path): seq<Issue>
    requires schema.Obj?
  {
    var declared := Declared(schema, k);
    if declared.Some? && !IsFiniteNumber(declared.value) then Issued(path, k, Malformed) else []
  }

  // ----------------------------------------------------- well-formed schemas

  /** A schema of supported keywords only, each of the right shape, nested at most `limit` deep. */
  ghost predicate WellFormed(schema: Json, depth: nat, limit: nat)
    requires schema.Obj?
    decreases schema, 3
  {
    && depth <= limit
    && (forall f | f in schema.fields :: f.key !in UNSUPPORTED_KEYWORDS)
    && WellFormedType(schema)
    && WellFormedEnum(schema)
    && WellFormedSubschemas(schema, depth, limit)
    && WellFormedShape(schema)
  }

  /** One known type name, or a non-empty array of them. */
  predicate WellFormedType(schema: Json)
    requires schema.Obj?
  {
    match Declared(schema, Type)
    case None => true
    case Some(Arr(names)) => names != [] && forall n | n in names :: KnownType(n)
    case Some(name) => KnownType(name)
  }

  /** A non-empty array of primitives. */
  predicate WellFormedEnum(schema: Json)
    requires schema.Obj?
  {
    match Declared(schema, Enum)
    case None => true
    case Some(Arr(allowed)) => allowed != [] && forall c | c in allowed :: SupportedEnumValue(c)
    case _ => false
  }

  predicate WellFormedRequired(schema: Json)
    requires schema.Obj?
  {
    match Declared(schema, Required)
    case None => true
    case Some(Arr(keys)) => AllStrings(keys)
    case _ => false
  }

  predicate WellFormedShape(schema: Json)
    requires schema.Obj?
  {
    && Every(Declared(schema, AdditionalProperties), (e: Json) => e.Bool?)
    && Every(Declared(schema, MinItems), IsCount)
    && Every(Declared(schema, MaxItems), IsCount)
    && Every(Declared(schema, MinLength), IsCount)
    && Every(Declared(schema, MaxLength), IsCount)
    && Every(Declared(schema, Minimum), IsFiniteNumber)
    && Every(Declared(schema, Maximum), IsFiniteNumber)
  }

  predicate Every(o: Option<Json>, p: Json -> bool) {
    o.Some? ==> p(o.value)
  }

  ghost predicate WellFormedSubschemas(schema: Json, depth: nat, limit: nat)
    requires schema.Obj?
    decreases schema, 2
  {
    && WellFormedBranches(schema, AllOf, depth, limit)
    && WellFormedBranches(schema, AnyOf, depth, limit)
    && WellFormedBranches(schema, OneOf, depth, limit)
    && WellFormedChild(schema, Not, depth, limit)
    && WellFormedRequired(schema)
    && WellFormedChild(schema, Items, depth, limit)
    && WellFormedProperties(schema, depth, limit)
  }

  ghost predicate WellFormedBranches(schema: Json, k: Keyword, depth: nat, limit: nat)
    requires schema.Obj?
    decreases schema, 1
  {
    match Declared(schema, k)
    case None => true
    case Some(Arr(branches)) => branches != [] && AllWellFormed(schema, branches, depth, limit)
    case _ => false
  }

  ghost predicate AllWellFormed(schema: Json, branches: seq<Json>, depth: nat, limit: nat)
    requires forall b :: b in branches ==> b < schema
    decreases schema, 0, |branches|
  {
    branches != [] ==>
      var n := |branches| - 1;
      assert branches[n] in branches && forall b :: b in branches[..n] ==> b in branches;
      && AllWellFormed(schema, branches[..n], depth, limit)
      && branches[n].Obj? && WellFormed(branches[n], depth + 1, limit)
  }

  ghost predicate WellFormedChild(schema: Json, k: Keyword, depth: nat, limit: nat)
    requires schema.Obj?
    decreases schema, 1
  {
    match Declared(schema, k)
    case None => true
    case Some(Obj(fields)) => WellFormed(Obj(fields), depth + 1, limit)
    case _ => false
  }

  ghost predicate WellFormedProperties(schema: Json, depth: nat, limit: nat)
    requires schema.Obj?
    decreases schema, 1
  {
    match Declared(schema, Properties)
    case None => true
    case Some(Obj(props)) => AllPropertiesWellFormed(schema, props, depth, limit)
    case _ => false
  }

  ghost predicate AllPropertiesWellFormed(schema: Json, props: seq<Field>, depth: nat, limit: nat)
    requires forall p :: p in props ==> p.value < schema
    decreases schema, 0, |props|
  {
    props != [] ==>
      var n := |props| - 1;
      && AllPropertiesWellFormed(schema, props[..n], depth, limit)
      && props[n].value.Obj?
      && WellFormed(props[n].value, depth + 1, limit)
  }

  // ----------------------------- the checker reports nothing exactly for these

  lemma {:induction false} NoIssuesIffWellFormed(schema: Json, path: Path, depth: nat)
    requires schema.Obj?
    ensures DefinitionIssues(schema, path, depth) == [] <==> WellFormed(schema, depth, MAX_DEFINITION_DEPTH)
    decreases schema, 3
  {
    hide SubschemaIssues, WellFormedSubschemas, UnsupportedIssues, TypeIssues, WellFormedType, EnumIssues,
         WellFormedEnum, ShapeIssues, WellFormedShape;
    NoUnsupportedIssues(schema.fields, path);
    NoTypeIssues(schema, path);
    NoEnumIssues(schema, path);
    NoShapeIssues(schema, path);
    if depth <= MAX_DEFINITION_DEPTH {
      NoSubschemaIssues(schema, path, depth);
    }
  }

  lemma NoTypeIssues(schema: Json, path: Path)
    requires schema.Obj?
    ensures TypeIssues(schema, path) == [] <==> WellFormedType(schema)
  {
    hide TypeNameIssues;
    match Declared(schema, Type)
    case Some(Arr(names)) => NoTypeNameIssues(names, path);
    case _ =>
  }

  lemma NoEnumIssues(schema: Json, path: Path)
    requires schema.Obj?
    ensures EnumIssues(schema, path) == [] <==> WellFormedEnum(schema)
  {
    hide EnumValueIssues;
    match Declared(schema, Enum)
    case Some(Arr(allowed)) => NoEnumValueIssues(allowed, path);
    case _ =>
  }

  lemma NoShapeIssues(schema: Json, path: Path)
    requires schema.Obj?
    ensures ShapeIssues(schema, path) == [] <==> WellFormedShape(schema)
  {
    hide Declared, Name;
  }

  lemma {:induction false} NoUnsupportedIssues(fields: seq<Field>, path: Path)
    ensures UnsupportedIssues(fields, path) == [] <==> forall f | f in fields :: f.key !in UNSUPPORTED_KEYWORDS
  {
    if fields != [] {
      var n := |fields| - 1;
      NoUnsupportedIssues(fields[..n], path);
      assert forall f :: f in fields <==> f in fields[..n] || f == fields[n];
    }
  }

  lemma {:induction false} NoTypeNameIssues(names: seq<Json>, path: Path)
    ensures TypeNameIssues(names, path) == [] <==> forall n | n in names :: KnownType(n)
  {
    if names != [] {
      var n := |names| - 1;
      NoTypeNameIssues(names[..n], path);
      assert forall e :: e in names <==> e in names[..n] || e == names[n];
    }
  }

  lemma {:induction false} NoEnumValueIssues(allowed: seq<Json>, path: Path)
    ensures EnumValueIssues(allowed, path) == [] <==> forall c | c in allowed :: SupportedEnumValue(c)
  {
    if allowed != [] {
      var n := |allowed| - 1;
      NoEnumValueIssues(allowed[..n], path);
      assert forall e :: e in allowed <==> e in allowed[..n] || e == allowed[n];
    }
  }

  lemma {:induction false} NoSubschemaIssues(schema: Json, path: Path, depth: nat)
    requires schema.Obj?
    ensures SubschemaIssues(schema, path, depth) == []
            <==> WellFormedSubschemas(schema, depth, MAX_DEFINITION_DEPTH)
    decreases schema, 2
  {
    hide DefinitionIssues, WellFormed, ArrayOfSchemas, OneSchema, PropertiesIssues,
         WellFormedBranches, WellFormedChild, WellFormedProperties, Declared, Name;
    NoBranchIssues(schema, AllOf, path, depth);
    NoBranchIssues(schema, AnyOf, path, depth);
    NoBranchIssues(schema, OneOf, path, depth);
    NoChildIssues(schema, Not, path, depth);
    NoChildIssues(schema, Items, path, depth);
    NoPropertiesIssues(schema, path, depth);
  }

  lemma {:induction false} NoBranchIssues(schema: Json, k: Keyword, path: Path, depth: nat)
    requires schema.Obj?
    ensures ArrayOfSchemas(schema, k, path, depth) == [] <==> WellFormedBranches(schema, k, depth, MAX_DEFINITION_DEPTH)
    decreases schema, 1
  {
    hide DefinitionIssues, WellFormed, BranchIssues, AllWellFormed, Declared, Name;
    match Declared(schema, k)
    case Some(Arr(branches)) => NoBranchListIssues(schema, k, branches, path, depth);
    case _ =>
  }

  lemma {:induction false} NoBranchListIssues(schema: Json, k: Keyword, branches: seq<Json>, path: Path, depth: nat)
    requires forall b :: b in branches ==> b < schema
    ensures BranchIssues(schema, k, branches, path, depth) == []
            <==> AllWellFormed(schema, branches, depth, MAX_DEFINITION_DEPTH)
    decreases schema, 0, |branches|
  {
    hide DefinitionIssues, WellFormed;
    if branches != [] {
      var n := |branches| - 1;
      assert branches[n] in branches && forall b :: b in branches[..n] ==> b in branches;
      NoBranchListIssues(schema, k, branches[..n], path, depth);
      if branches[n].Obj? {
        NoIssuesIffWellFormed(branches[n], path + [Property(Name(k)), Index(n)], depth + 1);
      }
    }
  }

  lemma {:induction false} NoChildIssues(schema: Json, k: Keyword, path: Path, depth: nat)
    requires schema.Obj?
    ensures OneSchema(schema, k, path, depth) == [] <==> WellFormedChild(schema, k, depth, MAX_DEFINITION_DEPTH)
    decreases schema, 1
  {
    hide DefinitionIssues, WellFormed, Declared, Name;
    match Declared(schema, k)
    case Some(Obj(fields)) => NoIssuesIffWellFormed(Obj(fields), path + [Property(Name(k))], depth + 1);
    case _ =>
  }

  lemma {:induction false} NoPropertiesIssues(schema: Json, path: Path, depth: nat)
    requires schema.Obj?
    ensures PropertiesIssues(schema, path, depth) == [] <==> WellFormedProperties(schema, depth, MAX_DEFINITION_DEPTH)
    decreases schema, 1
  {
    hide DefinitionIssues, WellFormed, PropertyIssues, AllPropertiesWellFormed;
    match Declared(schema, Properties)
    case Some(Obj(props)) => NoPropertyIssues(schema, props, path, depth);
    case _ =>
  }

  lemma {:induction false} NoPropertyIssues(schema: Json, props: seq<Field>, path: Path, depth: nat)
    requires forall p :: p in props ==> p.value < schema
    ensures PropertyIssues(schema, props, path, depth) == []
            <==> AllPropertiesWellFormed(schema, props, depth, MAX_DEFINITION_DEPTH)
    decreases schema, 0, |props|
  {
    hide DefinitionIssues, WellFormed;
    if props != [] {
      var n := |props| - 1;
      NoPropertyIssues(schema, props[..n], path, depth);
      if props[n].value.Obj? {
        NoIssuesIffWellFormed(props[n].value, path + [Property(Name(Properties)), Property(props[n].key)], depth + 1);
      }
    }
  }
}
