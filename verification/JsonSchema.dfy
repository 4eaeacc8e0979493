/**
 * The JSON-Schema-subset validator of src/core/json-schema.ts: which errors it
 * pushes, in which order, for any schema object, well formed or not.
 * Error wording is left out; each error keeps its kind and its path.
 */
module JsonSchema {
  import opened Options
  import opened JsonValues

  const MAX_DEFINITION_DEPTH := 64

  datatype Keyword =
    | Type | Enum | AllOf | AnyOf | OneOf | Not
    | Required | Properties | Items | AdditionalProperties
    | MinItems | MaxItems | MinLength | MaxLength | Minimum | Maximum

  function Name(k: Keyword): string {
    match k
    case Type => "type"
    case Enum => "enum"
    case AllOf => "allOf"
    case AnyOf => "anyOf"
    case OneOf => "oneOf"
    case Not => "not"
    case Required => "required"
    case Properties => "properties"
    case Items => "items"
    case AdditionalProperties => "additionalProperties"
    case MinItems => "minItems"
    case MaxItems => "maxItems"
    case MinLength => "minLength"
    case MaxLength => "maxLength"
    case Minimum => "minimum"
    case Maximum => "maximum"
  }

  lemma NameIsInjective(a: Keyword, b: Keyword)
    ensures Name(a) == Name(b) ==> a == b
  {
    if Name(a) == Name(b) {
      assert Name(a)[0] == Name(b)[0] && Name(a)[1] == Name(b)[1];
    }
  }

  datatype Step = Property(key: string) | Index(i: nat)
  type Path = seq<Step>

  datatype Error =
    | TooDeep(path: Path)
    | WrongType(path: Path, expected: seq<string>, actual: string)
    | NotInEnum(path: Path)
    | NoBranch(path: Path, keyword: Keyword, count: nat)
    | ManyBranches(path: Path, matched: seq<nat>)
    | Forbidden(path: Path)
    | OutOfBounds(path: Path, bound: Keyword)
    | MissingProperty(path: Path, key: string)
    | UnexpectedProperty(path: Path, key: string)

  // ---------------------------------------------------------------- keywords

  /** `schema[keyword]`; a subschema is a smaller value than its schema. */
  function Declared(schema: Json, k: Keyword): (r: Option<Json>)
    requires schema.Obj?
    ensures r.Some? ==> r.value < schema
  {
    Get(schema.fields, Name(k))
  }

  /** `isRecord(schema[keyword])`. */
  predicate IsRecord(o: Option<Json>) {
    o.Some? && o.value.Obj?
  }

  function StringsOf(elems: seq<Json>): (r: seq<string>)
    ensures forall s :: s in r <==> Str(s) in elems
  {
    if elems == [] then []
    else (if elems[0].Str? then [elems[0].s] else []) + StringsOf(elems[1..])
  }

  function RecordsOf(elems: seq<Json>): (r: seq<Json>)
    ensures |r| <= |elems|
    ensures forall b :: b in r <==> b in elems && b.Obj?
  {
    if elems == [] then []
    else (if elems[0].Obj? then [elems[0]] else []) + RecordsOf(elems[1..])
  }

  /** The schemas of a combinator keyword, or [] when it is absent or malformed. */
  function Branches(schema: Json, k: Keyword): (r: seq<Json>)
    requires schema.Obj?
    ensures forall b :: b in r ==> b.Obj? && b < schema
  {
    match Declared(schema, k)
    case Some(Arr(elems)) =>
      assert forall e :: e in elems ==> e < Arr(elems);
      RecordsOf(elems)
    case _ => []
  }

  function TypeOf(v: Json): string {
    match v
    case Null => "null"
    case Arr(_) => "array"
    case Str(_) => "string"
    case Bool(_) => "boolean"
    case Num(n) => if IsInteger(n) then "integer" else "number"
    case Obj(_) => "object"
  }

  /** Every integer is also a number. */
  predicate MatchesType(actual: string, expected: string) {
    expected == actual || (expected == "number" && actual == "integer")
  }

  /** The type names a schema asks for; [] when `type` constrains nothing. */
  function ExpectedTypes(schema: Json): seq<string>
    requires schema.Obj?
  {
    match Declared(schema, Type)
    case Some(Str(s)) => [s]
    case Some(Arr(elems)) => StringsOf(elems)
    case _ => []
  }

  predicate TypeAllows(v: Json, schema: Json)
    requires schema.Obj?
  {
    var expected := ExpectedTypes(schema);
    expected == [] || exists t :: t in expected && MatchesType(TypeOf(v), t)
  }

  predicate EnumAllows(v: Json, schema: Json)
    requires schema.Obj?
  {
    match Declared(schema, Enum)
    case Some(Arr(allowed)) => allowed == [] || exists c :: c in allowed && SameValue(c, v)
    case _ => true
  }

  /** A `min…` keyword: violated only when it is a number above the measure. */
  predicate BelowMinimum(schema: Json, k: Keyword, measure: Number)
    requires schema.Obj?
  {
    match Declared(schema, k)
    case Some(Num(n)) => Less(measure, n)
    case _ => false
  }

  predicate AboveMaximum(schema: Json, k: Keyword, measure: Number)
    requires schema.Obj?
  {
    match Declared(schema, k)
    case Some(Num(n)) => Less(n, measure)
    case _ => false
  }

  // ------------------------------------------- the error list, as a function

  function NodeErrors(v: Json, schema: Json, path: Path, depth: nat): seq<Error>
    requires schema.Obj?
    decreases schema, 4
  {
    if depth > MAX_DEFINITION_DEPTH then [TooDeep(path)]
    else if !TypeAllows(v, schema) then [WrongType(path, ExpectedTypes(schema), TypeOf(v))]
    else if !EnumAllows(v, schema) then [NotInEnum(path)]
    else CombinatorErrors(v, schema, path, depth) + OwnErrors(v, schema, path, depth)
  }

  function CombinatorErrors(v: Json, schema: Json, path: Path, depth: nat): seq<Error>
    requires schema.Obj?
    decreases schema, 3
  {
    AllOfErrors(v, schema, Branches(schema, AllOf), path, depth)
    + ChoiceErrors(v, schema, AnyOf, path, depth)
    + ChoiceErrors(v, schema, OneOf, path, depth)
    + NotErrors(v, schema, path, depth)
  }

  function AllOfErrors(v: Json, schema: Json, branches: seq<Json>, path: Path, depth: nat): seq<Error>
    requires forall b :: b in branches ==> b.Obj? && b < schema
    decreases schema, 1, |branches|
  {
    if branches == [] then []
    else
      AllOfErrors(v, schema, branches[..|branches| - 1], path, depth)
      + NodeErrors(v, branches[|branches| - 1], path, depth + 1)
  }

  /** The 1-based positions of the branches that accept the value. */
  function Matched(v: Json, schema: Json, branches: seq<Json>, path: Path, depth: nat): seq<nat>
    requires forall b :: b in branches ==> b.Obj? && b < schema
    decreases schema, 1, |branches|
  {
    if branches == [] then []
    else
      Matched(v, schema, branches[..|branches| - 1], path, depth)
      + if NodeErrors(v, branches[|branches| - 1], path, depth + 1) == [] then [|branches|] else []
  }

  function ChoiceErrors(v: Json, schema: Json, k: Keyword, path: Path, depth: nat): seq<Error>
    requires schema.Obj?
    decreases schema, 2
  {
    var branches := Branches(schema, k);
    var matched := Matched(v, schema, branches, path, depth);
    if branches == [] then []
    else if matched == [] then [NoBranch(path, k, |branches|)]
    else if k == OneOf && |matched| > 1 then [ManyBranches(path, matched)]
    else []
  }

  function NotErrors(v: Json, schema: Json, path: Path, depth: nat): seq<Error>
    requires schema.Obj?
    decreases schema, 2
  {
    match Declared(schema, Not)
    case Some(Obj(fields)) => if NodeErrors(v, Obj(fields), path, depth + 1) == [] then [Forbidden(path)] else []
    case _ => []
  }

  function BoundErrors(schema: Json, low: Keyword, high: Keyword, measure: Number, path: Path): seq<Error>
    requires schema.Obj?
  {
    (if BelowMinimum(schema, low, measure) then [OutOfBounds(path, low)] else [])
    + if AboveMaximum(schema, high, measure) then [OutOfBounds(path, high)] else []
  }

  function OwnErrors(v: Json, schema: Json, path: Path, depth: nat): seq<Error>
    requires schema.Obj?
    decreases schema, 3
  {
    match v
    case Str(s) => BoundErrors(schema, MinLength, MaxLength, Finite(Utf16Length(s) as real), path)
    case Num(n) => BoundErrors(schema, Minimum, Maximum, n, path)
    case Arr(elems) =>
      BoundErrors(schema, MinItems, MaxItems, Finite(|elems| as real), path)
      + ItemsErrors(elems, schema, path, depth)
    case Obj(record) =>
      MissingErrors(record, RequiredEntries(schema), path)
      + PropertyErrors(record, schema, DeclaredProperties(schema), path, depth)
      + ClosedErrors(record, schema, path)
    case _ => []
  }

  function ItemsErrors(elems: seq<Json>, schema: Json, path: Path, depth: nat): seq<Error>
    requires schema.Obj?
    decreases schema, 2
  {
    if IsRecord(Declared(schema, Items))
    then ElementErrors(elems, schema, Declared(schema, Items).value, path, depth)
    else []
  }

  function ClosedErrors(record: seq<Field>, schema: Json, path: Path): seq<Error>
    requires schema.Obj?
  {
    if Declared(schema, AdditionalProperties) == Some(Bool(false))
    then ExtraErrors(record, DeclaredProperties(schema), path)
    else []
  }

  /** The entries of a `required` array, whatever they are; [] when it is no array. */
  function RequiredEntries(schema: Json): seq<Json>
    requires schema.Obj?
  {
    match Declared(schema, Required) case Some(Arr(keys)) => keys case _ => []
  }

  /** The `properties` object, or no property at all when it is absent or malformed. */
  function DeclaredProperties(schema: Json): (props: seq<Field>)
    requires schema.Obj?
    ensures forall p :: p in props ==> p.value < schema
  {
    match Declared(schema, Properties) case Some(Obj(props)) => props case _ => []
  }

  function ElementErrors(elems: seq<Json>, schema: Json, items: Json, path: Path, depth: nat): seq<Error>
    requires items.Obj? && items < schema
    decreases schema, 1, |elems|
  {
    if elems == [] then []
    else
      var i := |elems| - 1;
      ElementErrors(elems[..i], schema, items, path, depth)
      + NodeErrors(elems[i], items, path + [Index(i)], depth + 1)
  }

  function MissingErrors(record: seq<Field>, keys: seq<Json>, path: Path): seq<Error> {
    if keys == [] then []
    else
      var key := keys[|keys| - 1];
      MissingErrors(record, keys[..|keys| - 1], path)
      + if key.Str? && !HasOwn(record, key.s) then [MissingProperty(path, key.s)] else []
  }

  function PropertyErrors(record: seq<Field>, schema: Json, props: seq<Field>, path: Path, depth: nat): seq<Error>
    requires forall f :: f in props ==> f.value < schema
    decreases schema, 1, |props|
  {
    if props == [] then []
    else
      var p := props[|props| - 1];
      PropertyErrors(record, schema, props[..|props| - 1], path, depth)
      + if HasOwn(record, p.key) && p.value.Obj?
        then NodeErrors(Get(record, p.key).value, p.value, path + [Property(p.key)], depth + 1) else []
  }

  function ExtraErrors(record: seq<Field>, props: seq<Field>, path: Path): seq<Error> {
    if record == [] then []
    else
      var key := record[|record| - 1].key;
      ExtraErrors(record[..|record| - 1], props, path)
      + if HasOwn(props, key) then [] else [UnexpectedProperty(path, key)]
  }
}
