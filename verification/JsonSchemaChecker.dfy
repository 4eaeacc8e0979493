/**
 * The definition checker as the source runs it: one recursive walk of the schema
 * object that pushes every issue onto a shared list, keyword by keyword. A whole check
 * makes at most size(schema) node visits.
 */
module JsonSchemaChecker {
  import opened Options
  import opened JsonValues
  import opened JsonSchema
  import opened JsonSchemaDefinition
  import opened Sinks
  import opened JsonSchemaSizes

  method CheckJsonSchemaDefinition(schema: Json) returns (issues: seq<Issue>, ghost visits: nat)
    requires schema.Obj?
    ensures issues == DefinitionIssues(schema, [], 0)
    ensures visits <= Size(schema)
  {
    var sink := new Sink<Issue>();
    visits := CheckDefinitionNode(schema, [], sink, 0);
    issues := sink.items;
  }

  /** `visits` counts the calls of this method, this one included. */
  method CheckDefinitionNode(schema: Json, path: Path, issues: Sink<Issue>, depth: nat) returns (ghost visits: nat)
    requires schema.Obj?
    modifies issues
    ensures issues.items == old(issues.items) + DefinitionIssues(schema, path, depth)
    ensures visits <= Size(schema)
    decreases schema, 4
  {
    hide UnsupportedIssues, TypeIssues, EnumIssues, SubschemaIssues, ShapeIssues, FieldsSize;
    visits := 1;
    if depth > MAX_DEFINITION_DEPTH {
      issues.Push(Issue(path, "(depth)", Malformed));
      return;
    }
    CheckUnsupported(schema.fields, path, issues);
    CheckType(schema, path, issues);
    CheckEnum(schema, path, issues);
    ghost var below := CheckSubschemas(schema, path, issues, depth);
    visits := 1 + below;
    CheckShape(schema, path, issues);
  }

  method CheckSubschemas(schema: Json, path: Path, issues: Sink<Issue>, depth: nat) returns (ghost visits: nat)
    requires schema.Obj?
    modifies issues
    ensures issues.items == old(issues.items) + SubschemaIssues(schema, path, depth)
    ensures visits <= FieldsSize(schema.fields)
    decreases schema, 3
  {
    hide RequiredIssues, ArrayOfSchemas, OneSchema, PropertiesIssues, Name, Weight, FieldsSize;
    ghost var all := CheckArrayOfSchemas(schema, AllOf, path, issues, depth);
    ghost var any := CheckArrayOfSchemas(schema, AnyOf, path, issues, depth);
    ghost var one := CheckArrayOfSchemas(schema, OneOf, path, issues, depth);
    ghost var negated := CheckOneSchema(schema, Not, path, issues, depth);
    CheckRequiredShape(schema, path, issues);
    ghost var props := CheckProperties(schema, path, issues, depth);
    ghost var items := CheckOneSchema(schema, Items, path, issues, depth);
    visits := all + any + one + negated + props + items;
    WeightsAddUp(schema.fields);
  }

  method CheckUnsupported(fields: seq<Field>, path: Path, issues: Sink<Issue>)
    modifies issues
    ensures issues.items == old(issues.items) + UnsupportedIssues(fields, path)
  {
    for i := 0 to |fields|
      invariant issues.items == old(issues.items) + UnsupportedIssues(fields[..i], path)
    {
      assert fields[..i + 1] == fields[..i] + [fields[i]];
      var key := fields[i].key;
      if key in UNSUPPORTED_KEYWORDS {
        issues.Push(Issue(path + [Property(key)], key, Unsupported));
      }
    }
    assert fields[..|fields|] == fields;
  }

  method CheckType(schema: Json, path: Path, issues: Sink<Issue>)
    requires schema.Obj?
    modifies issues
    ensures issues.items == old(issues.items) + TypeIssues(schema, path)
  {
    hide Name;
    match Declared(schema, Type) {
      case None =>
      case Some(Arr(names)) =>
        if names == [] {
          issues.PushAll(Issued(path, Type, Malformed));
          return;
        }
        for i := 0 to |names|
          invariant issues.items == old(issues.items) + TypeNameIssues(names[..i], path)
        {
          assert names[..i + 1] == names[..i] + [names[i]];
          if !KnownType(names[i]) {
            issues.Push(Issue(path + [Property(Name(Type)), Index(i)], Name(Type), Malformed));
          }
        }
        assert names[..|names|] == names;
      case Some(name) =>
        if !KnownType(name) {
          issues.PushAll(Issued(path, Type, Malformed));
        }
    }
  }

  method CheckEnum(schema: Json, path: Path, issues: Sink<Issue>)
    requires schema.Obj?
    modifies issues
    ensures issues.items == old(issues.items) + EnumIssues(schema, path)
  {
    hide Name;
    match Declared(schema, Enum) {
      case None =>
      case Some(Arr(allowed)) =>
        if allowed == [] {
          issues.PushAll(Issued(path, Enum, Malformed));
          return;
        }
        for i := 0 to |allowed|
          invariant issues.items == old(issues.items) + EnumValueIssues(allowed[..i], path)
        {
          assert allowed[..i + 1] == allowed[..i] + [allowed[i]];
          if !SupportedEnumValue(allowed[i]) {
            issues.Push(Issue(path + [Property(Name(Enum)), Index(i)], Name(Enum), Unsupported));
          }
        }
        assert allowed[..|allowed|] == allowed;
      case _ =>
        issues.PushAll(Issued(path, Enum, Malformed));
    }
  }

  method CheckArrayOfSchemas(schema: Json, k: Keyword, path: Path, issues: Sink<Issue>, depth: nat)
    returns (ghost visits: nat)
    requires schema.Obj?
    modifies issues
    ensures issues.items == old(issues.items) + ArrayOfSchemas(schema, k, path, depth)
    ensures visits <= Weight(schema.fields, k)
    decreases schema, 2
  {
    hide BranchIssues, Name, ElemsSize;
    visits := 0;
    match Declared(schema, k) {
      case None =>
      case Some(Arr(branches)) =>
        if branches == [] {
          issues.PushAll(Issued(path, k, Malformed));
          return;
        }
        visits := CheckBranches(schema, k, branches, path, issues, depth);
        WholeSize(branches, []);
      case _ =>
        issues.PushAll(Issued(path, k, Malformed));
    }
  }

  method CheckBranches(schema: Json, k: Keyword, branches: seq<Json>, path: Path, issues: Sink<Issue>, depth: nat)
    returns (ghost visits: nat)
    requires forall b :: b in branches ==> b < schema
    modifies issues
    ensures issues.items == old(issues.items) + BranchIssues(schema, k, branches, path, depth)
    ensures visits <= ElemsSize(branches)
    decreases schema, 1, 1
  {
    hide DefinitionIssues, Name, Size;
    visits := 0;
    for i := 0 to |branches|
      invariant visits <= ElemsSize(branches[..i])
      invariant forall b :: b in branches[..i] ==> b < schema
      invariant issues.items == old(issues.items) + BranchIssues(schema, k, branches[..i], path, depth)
    {
      hide BranchIssues, ElemsSize;
      NextBranch(schema, branches, i);
      ghost var more := CheckBranch(old(issues.items), schema, k, branches[..i], branches[i], path, issues, depth);
      visits := visits + more;
    }
    assert branches[..|branches|] == branches;
  }

  /** One turn of the loop; `before` is what had been reported before it. */
  method CheckBranch(
    ghost before: seq<Issue>, schema: Json, k: Keyword, init: seq<Json>, branch: Json, path: Path,
    issues: Sink<Issue>, depth: nat)
    returns (ghost visits: nat)
    requires branch < schema && (forall b :: b in init ==> b < schema)
    requires forall b :: b in init + [branch] ==> b < schema
    requires issues.items == before + BranchIssues(schema, k, init, path, depth)
    modifies issues
    ensures issues.items == before + BranchIssues(schema, k, init + [branch], path, depth)
    ensures visits <= Size(branch)
    decreases schema, 1, 0
  {
    hide DefinitionIssues, Name, Size;
    assert (init + [branch])[..|init|] == init;
    var at := path + [Property(Name(k)), Index(|init|)];
    visits := CheckMember(branch, k, at, issues, depth);
  }

  lemma NextBranch(schema: Json, branches: seq<Json>, i: nat)
    requires i < |branches| && forall b :: b in branches ==> b < schema
    ensures branches[..i + 1] == branches[..i] + [branches[i]] && branches[i] < schema
    ensures forall b :: b in branches[..i] + [branches[i]] ==> b < schema
    ensures ElemsSize(branches[..i + 1]) == ElemsSize(branches[..i]) + Size(branches[i])
  {
    hide Size, ElemsSize;
    assert branches[..i + 1] == branches[..i] + [branches[i]] && branches[i] in branches;
    assert forall b :: b in branches[..i] ==> b in branches;
    ElemsSizeSnoc(branches[..i], branches[i]);
  }

  /** What one entry of a list or record of schemas reports. */
  function MemberIssues(member: Json, k: Keyword, at: Path, depth: nat): seq<Issue> {
    if member.Obj? then DefinitionIssues(member, at, depth + 1) else [Issue(at, Name(k), Malformed)]
  }

  method CheckMember(member: Json, k: Keyword, at: Path, issues: Sink<Issue>, depth: nat) returns (ghost visits: nat)
    modifies issues
    ensures issues.items == old(issues.items) + MemberIssues(member, k, at, depth)
    ensures visits <= Size(member)
    decreases member, 5
  {
    hide DefinitionIssues, Name, Size;
    visits := 0;
    if member.Obj? {
      visits := CheckDefinitionNode(member, at, issues, depth + 1);
    } else {
      issues.Push(Issue(at, Name(k), Malformed));
    }
  }

  method CheckOneSchema(schema: Json, k: Keyword, path: Path, issues: Sink<Issue>, depth: nat)
    returns (ghost visits: nat)
    requires schema.Obj?
    modifies issues
    ensures issues.items == old(issues.items) + OneSchema(schema, k, path, depth)
    ensures visits <= Weight(schema.fields, k)
    decreases schema, 2
  {
    hide DefinitionIssues, Name, Size;
    visits := 0;
    match Declared(schema, k) {
      case None =>
      case Some(Obj(fields)) =>
        visits := CheckDefinitionNode(Obj(fields), path + [Property(Name(k))], issues, depth + 1);
      case Some(other) =>
        issues.PushAll(Issued(path, k, if k == Items && other.Arr? then Unsupported else Malformed));
    }
  }

  method CheckRequiredShape(schema: Json, path: Path, issues: Sink<Issue>)
    requires schema.Obj?
    modifies issues
    ensures issues.items == old(issues.items) + RequiredIssues(schema, path)
  {
    var required := Declared(schema, Required);
    if required.Some? && !(required.value.Arr? && AllStrings(required.value.elems)) {
      issues.PushAll(Issued(path, Required, Malformed));
    }
  }

  method CheckProperties(schema: Json, path: Path, issues: Sink<Issue>, depth: nat) returns (ghost visits: nat)
    requires schema.Obj?
    modifies issues
    ensures issues.items == old(issues.items) + PropertiesIssues(schema, path, depth)
    ensures visits <= Weight(schema.fields, Properties)
    decreases schema, 2
  {
    hide PropertyIssues, Name, FieldsSize;
    visits := 0;
    match Declared(schema, Properties) {
      case None =>
      case Some(Obj(props)) =>
        visits := CheckEachProperty(schema, props, path, issues, depth);
        WholeSize([], props);
      case _ =>
        issues.PushAll(Issued(path, Properties, Malformed));
    }
  }

  method CheckEachProperty(schema: Json, props: seq<Field>, path: Path, issues: Sink<Issue>, depth: nat)
    returns (ghost visits: nat)
    requires forall p :: p in props ==> p.value < schema
    modifies issues
    ensures issues.items == old(issues.items) + PropertyIssues(schema, props, path, depth)
    ensures visits <= FieldsSize(props)
    decreases schema, 1, 1
  {
    hide DefinitionIssues, Name, Size;
    visits := 0;
    for i := 0 to |props|
      invariant visits <= FieldsSize(props[..i])
      invariant forall p :: p in props[..i] ==> p.value < schema
      invariant issues.items == old(issues.items) + PropertyIssues(schema, props[..i], path, depth)
    {
      hide PropertyIssues, FieldsSize;
      NextProperty(schema, props, i);
      ghost var more := CheckProperty(old(issues.items), schema, props[..i], props[i], path, issues, depth);
      visits := visits + more;
    }
    assert props[..|props|] == props;
  }

  /** One turn of the loop; `before` is what had been reported before it. */
  method CheckProperty(
    ghost before: seq<Issue>, schema: Json, init: seq<Field>, p: Field, path: Path, issues: Sink<Issue>, depth: nat)
    returns (ghost visits: nat)
    requires p.value < schema && (forall q :: q in init ==> q.value < schema)
    requires forall q :: q in init + [p] ==> q.value < schema
    requires issues.items == before + PropertyIssues(schema, init, path, depth)
    modifies issues
    ensures issues.items == before + PropertyIssues(schema, init + [p], path, depth)
    ensures visits <= Size(p.value)
    decreases schema, 1, 0
  {
    hide DefinitionIssues, Name, Size;
    assert (init + [p])[..|init|] == init;
    var at := path + [Property(Name(Properties)), Property(p.key)];
    visits := CheckMember(p.value, Properties, at, issues, depth);
  }

  lemma NextProperty(schema: Json, props: seq<Field>, i: nat)
    requires i < |props| && forall p :: p in props ==> p.value < schema
    ensures props[..i + 1] == props[..i] + [props[i]] && props[i].value < schema
    ensures forall p :: p in props[..i] + [props[i]] ==> p.value < schema
    ensures FieldsSize(props[..i + 1]) == FieldsSize(props[..i]) + Size(props[i].value)
  {
    hide Size, FieldsSize;
    assert props[..i + 1] == props[..i] + [props[i]] && props[i] in props;
    FieldsSizeSnoc(props[..i], props[i]);
  }

  /** `additionalProperties` and the numeric bounds, in the checker's order. */
  method CheckShape(schema: Json, path: Path, issues: Sink<Issue>)
    requires schema.Obj?
    modifies issues
    ensures issues.items == old(issues.items) + ShapeIssues(schema, path)
  {
    hide Name, Declared, Issued, CountIssues, BoundIssues;
    CheckAdditional(schema, path, issues);
    CheckCount(schema, MinItems, path, issues);
    CheckCount(schema, MaxItems, path, issues);
    CheckCount(schema, MinLength, path, issues);
    CheckCount(schema, MaxLength, path, issues);
    CheckBound(schema, Minimum, path, issues);
    CheckBound(schema, Maximum, path, issues);
  }

  method CheckAdditional(schema: Json, path: Path, issues: Sink<Issue>)
    requires schema.Obj?
    modifies issues
    ensures issues.items == old(issues.items) + AdditionalIssues(schema, path)
  {
    var additional := Declared(schema, AdditionalProperties);
    if additional.Some? && !additional.value.Bool? {
      issues.PushAll(Issued(path, AdditionalProperties, if additional.value.Obj? then Unsupported else Malformed));
    }
  }

  method CheckCount(schema: Json, k: Keyword, path: Path, issues: Sink<Issue>)
    requires schema.Obj?
    modifies issues
    ensures issues.items == old(issues.items) + CountIssues(schema, k, path)
  {
    var declared := Declared(schema, k);
    if declared.Some? && !IsCount(declared.value) {
      issues.PushAll(Issued(path, k, Malformed));
    }
  }

  method CheckBound(schema: Json, k: Keyword, path: Path, issues: Sink<Issue>)
    requires schema.Obj?
    modifies issues
    ensures issues.items == old(issues.items) + BoundIssues(schema, k, path)
  {
    var declared := Declared(schema, k);
    if declared.Some? && !IsFiniteNumber(declared.value) {
      issues.PushAll(Issued(path, k, Malformed));
    }
  }
}
