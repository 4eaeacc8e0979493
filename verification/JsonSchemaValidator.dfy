/**
 * The validator as the source runs it: recursive
 * walks that push onto a shared list, with a scratch list for every branch of a
 * combinator. Each walk appends exactly the errors that the functions of
 * JsonSchema list, and a whole validation makes at most
 * size(schema) times size(value) node visits, so combinators cannot blow up.
 */
module JsonSchemaValidator {
  import opened Options
  import opened JsonValues
  import opened JsonSchema
  import opened Sinks
  import opened JsonSchemaSizes

  // Products are kept folded, so that the walks below reason about them with two laws only.

  function Times(a: nat, b: nat): nat {
    a * b
  }

  lemma Scale(a: nat, b: nat, v: nat)
    ensures Times(a + b, v) == Times(a, v) + Times(b, v)
    ensures Times(v, a + b) == Times(v, a) + Times(v, b)
  {
  }

  lemma Fits(part: nat, whole: nat, v: nat)
    requires part <= whole
    ensures Times(part, v) <= Times(whole, v)
    ensures Times(v, part) <= Times(v, whole)
  {
  }

  // ------------------------------------------------------------- the validator

  method ValidateJsonSchemaSubset(v: Json, schema: Json) returns (errors: seq<Error>, ghost visits: nat)
    requires schema.Obj?
    ensures errors == NodeErrors(v, schema, [], 0)
    ensures visits <= Size(schema) * Size(v)
  {
    var sink := new Sink<Error>();
    visits := ValidateNode(v, schema, [], 0, sink);
    errors := sink.items;
  }

  /** `visits` counts the calls of this method, this one included. */
  method ValidateNode(v: Json, schema: Json, path: Path, depth: nat, errors: Sink<Error>) returns (ghost visits: nat)
    requires schema.Obj?
    modifies errors
    ensures errors.items == old(errors.items) + NodeErrors(v, schema, path, depth)
    ensures visits <= Times(Size(schema), Size(v))
    decreases schema, 6
  {
    hide Times, CombinatorErrors, OwnErrors, Weight, Size, TypeAllows, EnumAllows, ExpectedTypes, TypeOf;
    visits := 1;
    OneVisit(v, schema);
    if depth > MAX_DEFINITION_DEPTH {
      errors.Push(TooDeep(path));
      return;
    }
    if !TypeAllows(v, schema) {
      errors.Push(WrongType(path, ExpectedTypes(schema), TypeOf(v)));
      return;
    }
    if !EnumAllows(v, schema) {
      errors.Push(NotInEnum(path));
      return;
    }
    ghost var combinatorVisits := ValidateCombinators(v, schema, path, depth, errors);
    ghost var ownVisits := ValidateOwn(v, schema, path, depth, errors);
    AllVisits(v, schema, combinatorVisits, ownVisits);
    visits := 1 + combinatorVisits + ownVisits;
  }

  lemma OneVisit(v: Json, schema: Json)
    ensures 1 <= Times(Size(schema), Size(v))
  {
  }

  lemma AllVisits(v: Json, schema: Json, combinators: nat, own: nat)
    requires schema.Obj?
    requires combinators <= Times(Weight(schema.fields, AllOf) + Weight(schema.fields, AnyOf)
                                  + Weight(schema.fields, OneOf) + Weight(schema.fields, Not), Size(v))
    requires own <= Times(Weight(schema.fields, Items) + Weight(schema.fields, Properties), Size(v))
    ensures 1 + combinators + own <= Times(Size(schema), Size(v))
  {
    hide Weight;
    WeightsAddUp(schema.fields);
    var c := Weight(schema.fields, AllOf) + Weight(schema.fields, AnyOf)
             + Weight(schema.fields, OneOf) + Weight(schema.fields, Not);
    var o := Weight(schema.fields, Items) + Weight(schema.fields, Properties);
    Scale(c, o, Size(v));
    Scale(1, FieldsSize(schema.fields), Size(v));
    Fits(c + o, FieldsSize(schema.fields), Size(v));
  }

  /** Evaluate a branch one level down, into a scratch list. */
  method BranchErrors(v: Json, branch: Json, path: Path, depth: nat) returns (errors: seq<Error>, ghost visits: nat)
    requires branch.Obj?
    ensures errors == NodeErrors(v, branch, path, depth + 1)
    ensures visits <= Times(Size(branch), Size(v))
    decreases branch, 7
  {
    hide Times, NodeErrors;
    var scratch := new Sink<Error>();
    visits := ValidateNode(v, branch, path, depth + 1, scratch);
    errors := scratch.items;
  }

  method ValidateCombinators(v: Json, schema: Json, path: Path, depth: nat, errors: Sink<Error>)
    returns (ghost visits: nat)
    requires schema.Obj?
    modifies errors
    ensures errors.items == old(errors.items) + CombinatorErrors(v, schema, path, depth)
    ensures visits <= Times(Weight(schema.fields, AllOf) + Weight(schema.fields, AnyOf)
                            + Weight(schema.fields, OneOf) + Weight(schema.fields, Not), Size(v))
    decreases schema, 5
  {
    hide Size, ElemsSize, Weight, Times, AllOfErrors, ChoiceErrors, NodeErrors, Branches, Name;
    ghost var all := ValidateAllOf(v, schema, path, depth, errors);
    ghost var any := ValidateChoice(v, schema, AnyOf, path, depth, errors);
    ghost var one := ValidateChoice(v, schema, OneOf, path, depth, errors);
    ghost var not_: nat := 0;
    var not := Declared(schema, Not);
    if IsRecord(not) {
      var scratch;
      scratch, not_ := BranchErrors(v, not.value, path, depth);
      ChildWeight(schema, Not);
      if scratch == [] {
        errors.Push(Forbidden(path));
      }
    }
    visits := all + any + one + not_;
    Scale(Weight(schema.fields, AllOf), Weight(schema.fields, AnyOf), Size(v));
    Scale(Weight(schema.fields, OneOf), Weight(schema.fields, Not), Size(v));
    Scale(Weight(schema.fields, AllOf) + Weight(schema.fields, AnyOf),
          Weight(schema.fields, OneOf) + Weight(schema.fields, Not), Size(v));
  }

  method ValidateAllOf(v: Json, schema: Json, path: Path, depth: nat, errors: Sink<Error>) returns (ghost visits: nat)
    requires schema.Obj?
    modifies errors
    ensures errors.items == old(errors.items) + AllOfErrors(v, schema, Branches(schema, AllOf), path, depth)
    ensures visits <= Times(Weight(schema.fields, AllOf), Size(v))
    decreases schema, 3
  {
    hide Size, ElemsSize, Weight, Times, NodeErrors, Branches;
    var branches := Branches(schema, AllOf);
    visits := 0;
    for i := 0 to |branches|
      invariant errors.items == old(errors.items) + AllOfErrors(v, schema, branches[..i], path, depth)
      invariant visits <= Times(ElemsSize(branches[..i]), Size(v))
    {
      assert branches[i] in branches && branches[..i + 1] == branches[..i] + [branches[i]];
      var scratch, more := BranchErrors(v, branches[i], path, depth);
      errors.PushAll(scratch);
      ElemsSizeSnoc(branches[..i], branches[i]);
      Scale(ElemsSize(branches[..i]), Size(branches[i]), Size(v));
      visits := visits + more;
    }
    assert branches[..|branches|] == branches;
    BranchesWeight(schema, AllOf);
    Fits(ElemsSize(branches), Weight(schema.fields, AllOf), Size(v));
  }

  /** Collect the 1-based numbers of the branches that match. */
  method CollectMatched(v: Json, schema: Json, k: Keyword, path: Path, depth: nat)
    returns (matched: seq<nat>, ghost visits: nat)
    requires schema.Obj?
    ensures matched == Matched(v, schema, Branches(schema, k), path, depth)
    ensures visits <= Times(ElemsSize(Branches(schema, k)), Size(v))
    decreases schema, 3
  {
    hide Size, ElemsSize, Weight, Times, NodeErrors, Branches;
    var branches := Branches(schema, k);
    matched := [];
    visits := 0;
    NoBranchWork(Size(v));
    for i := 0 to |branches|
      invariant matched == Matched(v, schema, branches[..i], path, depth)
      invariant visits <= Times(ElemsSize(branches[..i]), Size(v))
    {
      assert branches[i] in branches && branches[..i + 1] == branches[..i] + [branches[i]];
      var scratch, more := BranchErrors(v, branches[i], path, depth);
      if scratch == [] {
        matched := matched + [i + 1];
      }
      OneMoreBranch(branches, i, Size(v), visits, more);
      visits := visits + more;
    }
    assert branches[..|branches|] == branches;
  }

  lemma NoBranchWork(each: nat)
    ensures Times(ElemsSize([]), each) == 0
  {
  }

  lemma OneMoreBranch(branches: seq<Json>, i: nat, each: nat, visits: nat, more: nat)
    requires i < |branches|
    requires visits <= Times(ElemsSize(branches[..i]), each) && more <= Times(Size(branches[i]), each)
    ensures visits + more <= Times(ElemsSize(branches[..i + 1]), each)
  {
    hide Times, Size, ElemsSize;
    assert branches[..i + 1] == branches[..i] + [branches[i]];
    ElemsSizeSnoc(branches[..i], branches[i]);
    Scale(ElemsSize(branches[..i]), Size(branches[i]), each);
  }

  /** `anyOf` and `oneOf`: some branch must match, for `oneOf` no second one. */
  method ValidateChoice(v: Json, schema: Json, k: Keyword, path: Path, depth: nat, errors: Sink<Error>)
    returns (ghost visits: nat)
    requires schema.Obj?
    modifies errors
    ensures errors.items == old(errors.items) + ChoiceErrors(v, schema, k, path, depth)
    ensures visits <= Times(Weight(schema.fields, k), Size(v))
    decreases schema, 4
  {
    hide Size, ElemsSize, Weight, Times, NodeErrors, Branches, Matched;
    var branches := Branches(schema, k);
    var matched;
    matched, visits := CollectMatched(v, schema, k, path, depth);
    BranchesWeight(schema, k);
    Fits(ElemsSize(branches), Weight(schema.fields, k), Size(v));
    if branches != [] {
      if matched == [] {
        errors.Push(NoBranch(path, k, |branches|));
      } else if k == OneOf && |matched| > 1 {
        errors.Push(ManyBranches(path, matched));
      }
    }
  }

  /** The constraints of the value's own type. */
  method ValidateOwn(v: Json, schema: Json, path: Path, depth: nat, errors: Sink<Error>) returns (ghost visits: nat)
    requires schema.Obj?
    modifies errors
    ensures errors.items == old(errors.items) + OwnErrors(v, schema, path, depth)
    ensures visits <= Times(Weight(schema.fields, Items) + Weight(schema.fields, Properties), Size(v))
    decreases schema, 4
  {
    hide Times, ElementErrors, PropertyErrors, MissingErrors, ExtraErrors, NodeErrors, Weight, BoundErrors, Name;
    visits := 0;
    Scale(Weight(schema.fields, Items), Weight(schema.fields, Properties), Size(v));
    match v {
      case Str(s) => CheckBounds(schema, MinLength, MaxLength, Finite(Utf16Length(s) as real), path, errors);
      case Num(n) => CheckBounds(schema, Minimum, Maximum, n, path, errors);
      case Arr(elems) =>
        CheckBounds(schema, MinItems, MaxItems, Finite(|elems| as real), path, errors);
        if IsRecord(Declared(schema, Items)) {
          visits := ValidateElements(elems, schema, path, depth, errors);
        }
      case Obj(record) =>
        CheckRequired(record, RequiredEntries(schema), path, errors);
        visits := ValidateProperties(record, schema, path, depth, errors);
        if Declared(schema, AdditionalProperties) == Some(Bool(false)) {
          CheckClosed(record, DeclaredProperties(schema), path, errors);
        }
      case _ =>
    }
  }

  method CheckBounds(schema: Json, low: Keyword, high: Keyword, measure: Number, path: Path, errors: Sink<Error>)
    requires schema.Obj?
    modifies errors
    ensures errors.items == old(errors.items) + BoundErrors(schema, low, high, measure, path)
  {
    if BelowMinimum(schema, low, measure) {
      errors.Push(OutOfBounds(path, low));
    }
    if AboveMaximum(schema, high, measure) {
      errors.Push(OutOfBounds(path, high));
    }
  }

  method ValidateElements(elems: seq<Json>, schema: Json, path: Path, depth: nat, errors: Sink<Error>)
    returns (ghost visits: nat)
    requires schema.Obj? && IsRecord(Declared(schema, Items))
    modifies errors
    ensures errors.items
         == old(errors.items) + ElementErrors(elems, schema, Declared(schema, Items).value, path, depth)
    ensures visits <= Times(Weight(schema.fields, Items), Size(Arr(elems)))
    decreases schema, 3
  {
    hide Size, ElemsSize, Weight, Times, NodeErrors, Name;
    var items := Declared(schema, Items).value;
    visits := 0;
    for i := 0 to |elems|
      invariant errors.items == old(errors.items) + ElementErrors(elems[..i], schema, items, path, depth)
      invariant visits <= Times(Size(items), ElemsSize(elems[..i]))
    {
      assert elems[..i + 1] == elems[..i] + [elems[i]];
      ghost var more := ValidateNode(elems[i], items, path + [Index(i)], depth + 1, errors);
      ElemsSizeSnoc(elems[..i], elems[i]);
      Scale(ElemsSize(elems[..i]), Size(elems[i]), Size(items));
      visits := visits + more;
    }
    assert elems[..|elems|] == elems;
    ChildWeight(schema, Items);
    WholeSize(elems, []);
    Fits(ElemsSize(elems), Size(Arr(elems)), Size(items));
  }

  method CheckRequired(record: seq<Field>, keys: seq<Json>, path: Path, errors: Sink<Error>)
    modifies errors
    ensures errors.items == old(errors.items) + MissingErrors(record, keys, path)
  {
    for i := 0 to |keys|
      invariant errors.items == old(errors.items) + MissingErrors(record, keys[..i], path)
    {
      assert keys[..i + 1] == keys[..i] + [keys[i]];
      if keys[i].Str? && !HasOwn(record, keys[i].s) {
        errors.Push(MissingProperty(path, keys[i].s));
      }
    }
    assert keys[..|keys|] == keys;
  }

  method ValidateProperties(record: seq<Field>, schema: Json, path: Path, depth: nat, errors: Sink<Error>)
    returns (ghost visits: nat)
    requires schema.Obj?
    modifies errors
    ensures errors.items
         == old(errors.items) + PropertyErrors(record, schema, DeclaredProperties(schema), path, depth)
    ensures visits <= Times(Weight(schema.fields, Properties), Size(Obj(record)))
    decreases schema, 3
  {
    hide Times, NodeErrors, Name, Declared, Size, FieldsSize, Weight, HasOwn, Get;
    var props := DeclaredProperties(schema);
    ghost var total := Size(Obj(record));
    visits := 0;
    NoPropertyWork(total);
    for i := 0 to |props|
      invariant errors.items == old(errors.items) + PropertyErrors(record, schema, props[..i], path, depth)
      invariant visits <= Times(FieldsSize(props[..i]), total)
    {
      var p := props[i];
      assert props[..i + 1] == props[..i] + [p];
      ghost var more: nat := 0;
      if HasOwn(record, p.key) && p.value.Obj? {
        var member := Get(record, p.key).value;
        more := ValidateNode(member, p.value, path + [Property(p.key)], depth + 1, errors);
        MemberWork(record, p);
      }
      OneMoreProperty(props, i, total, visits, more);
      visits := visits + more;
    }
    assert props[..|props|] == props;
    PropertiesWeight(schema);
    Fits(FieldsSize(props), Weight(schema.fields, Properties), total);
  }

  lemma NoPropertyWork(each: nat)
    ensures Times(FieldsSize([]), each) == 0
  {
  }

  lemma MemberWork(record: seq<Field>, p: Field)
    requires HasOwn(record, p.key)
    ensures Times(Size(p.value), Size(Get(record, p.key).value)) <= Times(Size(p.value), Size(Obj(record)))
  {
    hide Size, FieldsSize;
    MemberSize(record, p.key);
    WholeSize([], record);
    Fits(Size(Get(record, p.key).value), Size(Obj(record)), Size(p.value));
  }

  lemma OneMoreProperty(props: seq<Field>, i: nat, each: nat, visits: nat, more: nat)
    requires i < |props|
    requires visits <= Times(FieldsSize(props[..i]), each) && more <= Times(Size(props[i].value), each)
    ensures visits + more <= Times(FieldsSize(props[..i + 1]), each)
  {
    hide Times, Size, FieldsSize;
    assert props[..i + 1] == props[..i] + [props[i]];
    FieldsSizeSnoc(props[..i], props[i]);
    Scale(FieldsSize(props[..i]), Size(props[i].value), each);
  }

  method CheckClosed(record: seq<Field>, props: seq<Field>, path: Path, errors: Sink<Error>)
    modifies errors
    ensures errors.items == old(errors.items) + ExtraErrors(record, props, path)
  {
    for i := 0 to |record|
      invariant errors.items == old(errors.items) + ExtraErrors(record[..i], props, path)
    {
      assert record[..i + 1] == record[..i] + [record[i]];
      if !HasOwn(props, record[i].key) {
        errors.Push(UnexpectedProperty(path, record[i].key));
      }
    }
    assert record[..|record|] == record;
  }
}
