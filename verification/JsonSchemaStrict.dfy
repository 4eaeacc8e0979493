/**
 * JSON Schema 2020-12 for the keywords the subset supports: an instance is valid
 * when every keyword of the schema holds of it, independently of the others
 * (Core sections 10.2.1 and 10.3, Validation section 6). The one departure is
 * length, counted in UTF-16 code units as JavaScript does.
 */
module JsonSchemaStrict {
  import opened Options
  import opened JsonValues
  import opened JsonSchema
  import opened JsonSchemaDefinition
  import Meaning = JsonSchemaMeaning

  ghost predicate Strict(v: Json, schema: Json)
    requires schema.Obj?
    decreases schema, 3
  {
    AssertionsHold(v, schema) && ApplicatorsHold(v, schema)
  }

  // ---------------------------------------- assertions: no subschema involved

  ghost predicate AssertionsHold(v: Json, schema: Json)
    requires schema.Obj?
  {
    forall k: Keyword :: Asserted(k, v, schema)
  }

  ghost predicate Asserted(k: Keyword, v: Json, schema: Json)
    requires schema.Obj?
  {
    Declared(schema, k).Some? ==> AssertionHolds(k, Declared(schema, k).value, v, schema)
  }

  predicate IsOfType(v: Json, name: string) {
    match v
    case Null => name == "null"
    case Bool(_) => name == "boolean"
    case Num(n) => name == "number" || (name == "integer" && IsInteger(n))
    case Str(_) => name == "string"
    case Arr(_) => name == "array"
    case Obj(_) => name == "object"
  }

  /** `lower <= measure`, for a bound that is a finite number. */
  predicate AtLeast(measure: real, lower: Json) {
    lower.Num? && lower.n.Finite? && lower.n.r <= measure
  }

  predicate AtMost(measure: real, upper: Json) {
    upper.Num? && upper.n.Finite? && measure <= upper.n.r
  }

  ghost predicate AssertionHolds(k: Keyword, arg: Json, v: Json, schema: Json)
    requires schema.Obj?
  {
    match k
    case Type => if arg.Arr? then exists t :: Str(t) in arg.elems && IsOfType(v, t) else arg.Str? && IsOfType(v, arg.s)
    case Enum => arg.Arr? && v in arg.elems
    case Required => v.Obj? ==> arg.Arr? && forall key | Str(key) in arg.elems :: HasMember(v.fields, key)
    case AdditionalProperties =>
      v.Obj? && arg == Bool(false) ==> forall f | f in v.fields :: HasMember(DeclaredProperties(schema), f.key)
    case MinItems => v.Arr? ==> AtLeast(|v.elems| as real, arg)
    case MaxItems => v.Arr? ==> AtMost(|v.elems| as real, arg)
    case MinLength => v.Str? ==> AtLeast(Utf16Length(v.s) as real, arg)
    case MaxLength => v.Str? ==> AtMost(Utf16Length(v.s) as real, arg)
    case Minimum => v.Num? ==> IsFiniteNumber(arg) && !Less(v.n, arg.n)
    case Maximum => v.Num? ==> IsFiniteNumber(arg) && !Less(arg.n, v.n)
    case _ => true
  }

  predicate HasMember(fields: seq<Field>, key: string) {
    exists f :: f in fields && f.key == key
  }

  // ---------------------------------- applicators: the meaning of subschemas

  ghost predicate ApplicatorsHold(v: Json, schema: Json)
    requires schema.Obj?
    decreases schema, 2
  {
    && (Declared(schema, AllOf).Some? ==> Meaning.AllOf(BranchesStrict(v, schema, AllOf)))
    && (Declared(schema, AnyOf).Some? ==> Meaning.AnyOf(BranchesStrict(v, schema, AnyOf)))
    && (Declared(schema, OneOf).Some? ==> Meaning.OneOf(BranchesStrict(v, schema, OneOf)))
    && (Declared(schema, Not).Some? ==> !ChildStrict(v, Declared(schema, Not).value))
    && (v.Arr? && Declared(schema, Items).Some? ==>
          Meaning.AllOf(ElementsStrict(v.elems, schema, Declared(schema, Items).value)))
    && (v.Obj? && Declared(schema, Properties).Some? ==>
          Meaning.AllOf(PropertiesStrict(v.fields, schema, DeclaredProperties(schema))))
  }

  ghost predicate ChildStrict(v: Json, child: Json)
    decreases child, 4
  {
    child.Obj? && Strict(v, child)
  }

  ghost function BranchesStrict(v: Json, schema: Json, k: Keyword): seq<bool>
    requires schema.Obj?
    decreases schema, 1
  {
    match Declared(schema, k)
    case Some(Arr(branches)) => ListStrict(v, schema, branches)
    case _ => []
  }

  ghost function ListStrict(v: Json, schema: Json, branches: seq<Json>): seq<bool>
    requires forall b :: b in branches ==> b < schema
    decreases schema, 0, |branches|
  {
    if branches == [] then []
    else
      var n := |branches| - 1;
      assert branches[n] in branches && forall b :: b in branches[..n] ==> b in branches;
      ListStrict(v, schema, branches[..n]) + [ChildStrict(v, branches[n])]
  }

  ghost function ElementsStrict(elems: seq<Json>, schema: Json, items: Json): seq<bool>
    requires items < schema
    decreases schema, 0, |elems|
  {
    if elems == [] then []
    else
      var n := |elems| - 1;
      ElementsStrict(elems[..n], schema, items) + [ChildStrict(elems[n], items)]
  }

  /** A declared property constrains only an object that has a member of that name. */
  ghost function PropertiesStrict(record: seq<Field>, schema: Json, props: seq<Field>): seq<bool>
    requires forall p :: p in props ==> p.value < schema
    decreases schema, 0, |props|
  {
    if props == [] then []
    else
      var n := |props| - 1;
      var p := props[n];
      PropertiesStrict(record, schema, props[..n])
      + [HasOwn(record, p.key) ==> ChildStrict(Get(record, p.key).value, p.value)]
  }

  // ------------------------- schemas in which no flipped verdict is cut short

  /** Below every `not` and every `oneOf` the schema is well formed within the depth bound. Elsewhere it may be
      nested as deep as it likes. */
  ghost predicate NegationShallow(schema: Json, depth: nat)
    requires schema.Obj?
    decreases schema, 3
  {
    && WellFormedChild(schema, Not, depth, MAX_DEFINITION_DEPTH)
    && WellFormedBranches(schema, OneOf, depth, MAX_DEFINITION_DEPTH)
    && ListNegationShallow(schema, Branches(schema, AllOf), depth)
    && ListNegationShallow(schema, Branches(schema, AnyOf), depth)
    && (IsRecord(Declared(schema, Items)) ==> NegationShallow(Declared(schema, Items).value, depth + 1))
    && PropertiesNegationShallow(schema, DeclaredProperties(schema), depth)
  }

  ghost predicate ListNegationShallow(schema: Json, branches: seq<Json>, depth: nat)
    requires forall b :: b in branches ==> b.Obj? && b < schema
    decreases schema, 0, |branches|
  {
    branches != [] ==>
      var n := |branches| - 1;
      assert branches[n] in branches;
      ListNegationShallow(schema, branches[..n], depth) && NegationShallow(branches[n], depth + 1)
  }

  ghost predicate PropertiesNegationShallow(schema: Json, props: seq<Field>, depth: nat)
    requires forall p :: p in props ==> p.value < schema
    decreases schema, 0, |props|
  {
    props != [] ==>
      var n := |props| - 1;
      && PropertiesNegationShallow(schema, props[..n], depth)
      && (props[n].value.Obj? ==> NegationShallow(props[n].value, depth + 1))
  }

  // -------------------------------------------------- permissive against strict

  /** `exact`: the verdict is the same; otherwise the first may only be stricter. */
  predicate Agrees(exact: bool, permissive: bool, strict: bool) {
    && (permissive ==> strict)
    && (exact && strict ==> permissive)
  }

  predicate AllAgree(exact: bool, permissive: seq<bool>, strict: seq<bool>) {
    |permissive| == |strict| && forall i | 0 <= i < |strict| :: Agrees(exact, permissive[i], strict[i])
  }

  lemma AllAgreeSnoc(exact: bool, permissive: seq<bool>, strict: seq<bool>, p: bool, s: bool)
    requires AllAgree(exact, permissive, strict) && Agrees(exact, p, s)
    ensures AllAgree(exact, permissive + [p], strict + [s])
  {
  }

  lemma CombinedAgree(exact: bool, permissive: seq<bool>, strict: seq<bool>)
    requires AllAgree(exact, permissive, strict)
    ensures Agrees(exact, Meaning.AllOf(permissive), Meaning.AllOf(strict))
    ensures Agrees(exact, Meaning.AnyOf(permissive), Meaning.AnyOf(strict))
    ensures exact ==> permissive == strict
  {
    if exact { assert permissive == strict; }
  }

  /** What each theorem below assumes of a schema. */
  ghost predicate Suitable(exact: bool, schema: Json, depth: nat, limit: nat)
    requires schema.Obj?
  {
    && WellFormed(schema, depth, limit)
    && (if exact then limit <= MAX_DEFINITION_DEPTH else NegationShallow(schema, depth))
  }

  lemma {:induction false} Agreement(exact: bool, v: Json, schema: Json, depth: nat, limit: nat)
    requires schema.Obj? && Suitable(exact, schema, depth, limit)
    ensures Agrees(exact, Meaning.Accepts(v, schema, depth), Strict(v, schema))
    decreases schema, 3
  {
    hide ApplicatorsHold, AssertionsHold, Meaning.CombinatorsAccept, Meaning.ChildrenAccept, Meaning.OwnAssertions,
         TypeAllows, EnumAllows, WellFormedType, WellFormedEnum, WellFormedRequired, WellFormedShape,
         NegationShallow, WellFormedBranches, WellFormedChild, WellFormedProperties;
    assert WellFormedSubschemas(schema, depth, limit);
    AssertionsAgree(v, schema);
    CombinatorsAgree(exact, v, schema, depth, limit);
    ChildrenAgree(exact, v, schema, depth, limit);
    ApplicatorsSplit(v, schema);
  }

  ghost predicate CombinatorsHold(v: Json, schema: Json)
    requires schema.Obj?
  {
    && (Declared(schema, AllOf).Some? ==> Meaning.AllOf(BranchesStrict(v, schema, AllOf)))
    && (Declared(schema, AnyOf).Some? ==> Meaning.AnyOf(BranchesStrict(v, schema, AnyOf)))
    && (Declared(schema, OneOf).Some? ==> Meaning.OneOf(BranchesStrict(v, schema, OneOf)))
    && (Declared(schema, Not).Some? ==> !ChildStrict(v, Declared(schema, Not).value))
  }

  ghost predicate ChildrenHold(v: Json, schema: Json)
    requires schema.Obj?
  {
    && (v.Arr? && Declared(schema, Items).Some? ==>
          Meaning.AllOf(ElementsStrict(v.elems, schema, Declared(schema, Items).value)))
    && (v.Obj? && Declared(schema, Properties).Some? ==>
          Meaning.AllOf(PropertiesStrict(v.fields, schema, DeclaredProperties(schema))))
  }

  lemma ApplicatorsSplit(v: Json, schema: Json)
    requires schema.Obj?
    ensures ApplicatorsHold(v, schema) <==> CombinatorsHold(v, schema) && ChildrenHold(v, schema)
  {
    hide Strict, BranchesStrict, ElementsStrict, PropertiesStrict;
  }

  // The combinators.

  lemma {:induction false} CombinatorsAgree(exact: bool, v: Json, schema: Json, depth: nat, limit: nat)
    requires schema.Obj? && Suitable(exact, schema, depth, limit)
    ensures Agrees(exact, Meaning.CombinatorsAccept(v, schema, depth), CombinatorsHold(v, schema))
    decreases schema, 2
  {
    hide Strict, Meaning.Accepts, Meaning.Verdicts, BranchesStrict, WellFormedBranches, WellFormedType,
         WellFormedEnum, WellFormedShape, WellFormedProperties, ListNegationShallow, PropertiesNegationShallow, Name,
         Meaning.AnyOf, Meaning.OneOf;
    assert WellFormedSubschemas(schema, depth, limit) && WellFormedChild(schema, Not, depth, limit);
    BranchesAgree(exact, v, schema, AllOf, depth, limit);
    BranchesAgree(exact, v, schema, AnyOf, depth, limit);
    BranchesAgree(true, v, schema, OneOf, depth, if exact then limit else MAX_DEFINITION_DEPTH);
    if Declared(schema, Not).Some? {
      ChildAgrees(true, v, Declared(schema, Not).value, depth, if exact then limit else MAX_DEFINITION_DEPTH);
    }
  }

  lemma {:induction false} ChildAgrees(exact: bool, v: Json, child: Json, depth: nat, limit: nat)
    requires child.Obj? && Suitable(exact, child, depth + 1, limit)
    ensures Agrees(exact, Meaning.Accepts(v, child, depth + 1), ChildStrict(v, child))
    decreases child, 4
  {
    hide Strict, Meaning.Accepts, Suitable;
    Agreement(exact, v, child, depth + 1, limit);
  }

  lemma {:induction false} BranchesAgree(exact: bool, v: Json, schema: Json, k: Keyword, depth: nat, limit: nat)
    requires schema.Obj? && WellFormedBranches(schema, k, depth, limit)
    requires if exact then limit <= MAX_DEFINITION_DEPTH else ListNegationShallow(schema, Branches(schema, k), depth)
    ensures Branches(schema, k) == [] <==> Declared(schema, k).None?
    ensures var permissive := Meaning.Verdicts(v, schema, Branches(schema, k), depth);
            var strict := BranchesStrict(v, schema, k);
            && (exact ==> permissive == strict)
            && Agrees(exact, Meaning.AllOf(permissive), Meaning.AllOf(strict))
            && Agrees(exact, Meaning.AnyOf(permissive), Meaning.AnyOf(strict))
    decreases schema, 1
  {
    hide Strict, Meaning.Accepts, WellFormed, AllWellFormed, ListStrict, Meaning.Verdicts, ListNegationShallow, Name,
         Meaning.AllOf, Meaning.AnyOf;
    match Declared(schema, k) {
      case Some(Arr(branches)) =>
        AllRecords(schema, branches, depth, limit);
        ListAgrees(exact, v, schema, branches, depth, limit);
      case None => NothingAgrees(exact, v, schema, depth);
      case _ =>
    }
    CombinedAgree(exact, Meaning.Verdicts(v, schema, Branches(schema, k), depth), BranchesStrict(v, schema, k));
  }

  lemma NothingAgrees(exact: bool, v: Json, schema: Json, depth: nat)
    ensures AllAgree(exact, Meaning.Verdicts(v, schema, [], depth), [])
  {
  }

  /** Nothing is filtered out of a well-formed list of schemas. */
  lemma {:induction false} AllRecords(schema: Json, branches: seq<Json>, depth: nat, limit: nat)
    requires forall b :: b in branches ==> b < schema
    requires AllWellFormed(schema, branches, depth, limit)
    ensures RecordsOf(branches) == branches
    ensures forall b :: b in branches ==> b.Obj?
    decreases |branches|
  {
    hide WellFormed;
    if branches != [] {
      var n := |branches| - 1;
      assert forall b :: b in branches[..n] ==> b in branches;
      AllRecords(schema, branches[..n], depth, limit);
      RecordsSnoc(branches[..n], branches[n]);
      assert branches == branches[..n] + [branches[n]];
    }
  }

  lemma {:induction false} RecordsSnoc(elems: seq<Json>, last: Json)
    ensures RecordsOf(elems + [last]) == RecordsOf(elems) + if last.Obj? then [last] else []
  {
    if elems != [] {
      RecordsSnoc(elems[1..], last);
      assert (elems + [last])[1..] == elems[1..] + [last];
    }
  }

  lemma {:induction false} ListAgrees(exact: bool, v: Json, schema: Json, branches: seq<Json>, depth: nat, limit: nat)
    requires forall b :: b in branches ==> b.Obj? && b < schema
    requires AllWellFormed(schema, branches, depth, limit)
    requires if exact then limit <= MAX_DEFINITION_DEPTH else ListNegationShallow(schema, branches, depth)
    ensures AllAgree(exact, Meaning.Verdicts(v, schema, branches, depth), ListStrict(v, schema, branches))
    decreases schema, 0, |branches|
  {
    hide Strict, Meaning.Accepts, WellFormed, NegationShallow;
    if branches != [] {
      var n := |branches| - 1;
      assert branches[n] in branches;
      ListAgrees(exact, v, schema, branches[..n], depth, limit);
      Agreement(exact, v, branches[n], depth + 1, limit);
      AllAgreeSnoc(exact, Meaning.Verdicts(v, schema, branches[..n], depth), ListStrict(v, schema, branches[..n]),
                   Meaning.Accepts(v, branches[n], depth + 1), ChildStrict(v, branches[n]));
    }
  }

  // The elements of an array and the members of an object.

  lemma {:induction false} ChildrenAgree(exact: bool, v: Json, schema: Json, depth: nat, limit: nat)
    requires schema.Obj? && Suitable(exact, schema, depth, limit)
    ensures Agrees(exact, Meaning.ChildrenAccept(v, schema, depth), ChildrenHold(v, schema))
    decreases schema, 2
  {
    hide Strict, Meaning.Accepts, ElementsStrict, Meaning.ElementVerdicts, PropertiesStrict, Meaning.PropertyVerdicts,
         WellFormedBranches, WellFormedType, WellFormedEnum, WellFormedShape, WellFormedRequired, ListNegationShallow,
         Name, AllPropertiesWellFormed, PropertiesNegationShallow, Meaning.AllOf;
    assert WellFormedSubschemas(schema, depth, limit);
    if v.Arr? && Declared(schema, Items).Some? {
      assert WellFormedChild(schema, Items, depth, limit);
      var items := Declared(schema, Items).value;
      ElementsAgree(exact, v.elems, schema, items, depth, limit);
      CombinedAgree(exact, Meaning.ElementVerdicts(v.elems, schema, items, depth),
                    ElementsStrict(v.elems, schema, items));
    }
    if v.Obj? {
      var props := DeclaredProperties(schema);
      assert WellFormedProperties(schema, depth, limit);
      if Declared(schema, Properties).Some? {
        PropertiesAgree(exact, v.fields, schema, props, depth, limit);
        CombinedAgree(exact, Meaning.PropertyVerdicts(v.fields, schema, props, depth),
                      PropertiesStrict(v.fields, schema, props));
      } else {
        NoProperties(v.fields, schema, depth);
      }
    }
  }

  lemma NoProperties(record: seq<Field>, schema: Json, depth: nat)
    ensures Meaning.AllOf(Meaning.PropertyVerdicts(record, schema, [], depth))
  {
  }

  lemma {:induction false} ElementsAgree(
    exact: bool, elems: seq<Json>, schema: Json, items: Json, depth: nat, limit: nat)
    requires items.Obj? && items < schema && Suitable(exact, items, depth + 1, limit)
    ensures AllAgree(exact, Meaning.ElementVerdicts(elems, schema, items, depth), ElementsStrict(elems, schema, items))
    decreases schema, 0, |elems|
  {
    hide Strict, Meaning.Accepts, Suitable;
    if elems != [] {
      var n := |elems| - 1;
      ElementsAgree(exact, elems[..n], schema, items, depth, limit);
      Agreement(exact, elems[n], items, depth + 1, limit);
      AllAgreeSnoc(exact, Meaning.ElementVerdicts(elems[..n], schema, items, depth),
                   ElementsStrict(elems[..n], schema, items),
                   Meaning.Accepts(elems[n], items, depth + 1), ChildStrict(elems[n], items));
    }
  }

  lemma {:induction false} PropertiesAgree(
    exact: bool, record: seq<Field>, schema: Json, props: seq<Field>, depth: nat, limit: nat)
    requires forall p :: p in props ==> p.value < schema
    requires AllPropertiesWellFormed(schema, props, depth, limit)
    requires if exact then limit <= MAX_DEFINITION_DEPTH else PropertiesNegationShallow(schema, props, depth)
    ensures AllAgree(exact, Meaning.PropertyVerdicts(record, schema, props, depth),
                     PropertiesStrict(record, schema, props))
    decreases schema, 0, |props|
  {
    hide Strict, Meaning.Accepts, WellFormed, NegationShallow;
    if props != [] {
      var n := |props| - 1;
      var p := props[n];
      PropertiesAgree(exact, record, schema, props[..n], depth, limit);
      if HasOwn(record, p.key) {
        Agreement(exact, Get(record, p.key).value, p.value, depth + 1, limit);
      }
      AllAgreeSnoc(exact, Meaning.PropertyVerdicts(record, schema, props[..n], depth),
                   PropertiesStrict(record, schema, props[..n]),
                   HasOwn(record, p.key) && p.value.Obj? ==>
                     Meaning.Accepts(Get(record, p.key).value, p.value, depth + 1),
                   HasOwn(record, p.key) ==> ChildStrict(Get(record, p.key).value, p.value));
    }
  }

  // The assertions.

  lemma AssertionsAgree(v: Json, schema: Json)
    requires schema.Obj?
    requires WellFormedType(schema) && WellFormedEnum(schema) && WellFormedRequired(schema) && WellFormedShape(schema)
    ensures TypeAllows(v, schema) && EnumAllows(v, schema) && Meaning.OwnAssertions(v, schema)
            <==> AssertionsHold(v, schema)
  {
    hide TypeAllows, EnumAllows, Meaning.OwnAssertions, Asserted, WellFormedShape, WellFormedRequired;
    TypeAgrees(v, schema);
    EnumAgrees(v, schema);
    MembersAgree(v, schema);
    BoundsAgree(v, schema);
    OwnAssertionsSplit(v, schema);
    ApplicatorsAssertNothing(v, schema);
    if TypeAllows(v, schema) && EnumAllows(v, schema) && Meaning.OwnAssertions(v, schema) {
      forall k: Keyword ensures Asserted(k, v, schema) {
        match k
        case Type => case Enum => case Required => case AdditionalProperties =>
        case MinItems => case MaxItems => case MinLength => case MaxLength => case Minimum => case Maximum =>
        case AllOf => case AnyOf => case OneOf => case Not => case Items => case Properties =>
      }
    }
  }

  lemma ApplicatorsAssertNothing(v: Json, schema: Json)
    requires schema.Obj?
    ensures Asserted(AllOf, v, schema) && Asserted(AnyOf, v, schema) && Asserted(OneOf, v, schema)
    ensures Asserted(Not, v, schema) && Asserted(Items, v, schema) && Asserted(Properties, v, schema)
  {
  }

  lemma TypeAgrees(v: Json, schema: Json)
    requires schema.Obj? && WellFormedType(schema)
    ensures TypeAllows(v, schema) <==> Asserted(Type, v, schema)
  {
    hide Name;
    forall t: string ensures MatchesType(TypeOf(v), t) <==> IsOfType(v, t) { TypeNamesAgree(v, t); }
    match Declared(schema, Type) {
      case Some(Arr(names)) => assert names[0] in names && Str(names[0].s) in names;
      case Some(Str(s)) => assert ExpectedTypes(schema) == [s];
      case Some(_) =>
      case None =>
    }
  }

  lemma TypeNamesAgree(v: Json, t: string)
    ensures MatchesType(TypeOf(v), t) <==> IsOfType(v, t)
  {
    assert "boolean"[0] != "integer"[0] && |"integer"| == 7;
    assert |"null"| == 4 && |"string"| == 6 && |"object"| == 6 && |"array"| == 5;
  }

  lemma EnumAgrees(v: Json, schema: Json)
    requires schema.Obj? && WellFormedEnum(schema)
    ensures EnumAllows(v, schema) <==> Asserted(Enum, v, schema)
  {
    hide Name;
  }

  ghost predicate MembersAccept(v: Json, schema: Json)
    requires schema.Obj?
  {
    v.Obj? ==> Meaning.OwnAssertions(v, schema)
  }

  ghost predicate BoundsAccept(v: Json, schema: Json)
    requires schema.Obj?
  {
    !v.Obj? ==> Meaning.OwnAssertions(v, schema)
  }

  lemma OwnAssertionsSplit(v: Json, schema: Json)
    requires schema.Obj?
    ensures Meaning.OwnAssertions(v, schema) <==> MembersAccept(v, schema) && BoundsAccept(v, schema)
  {
  }

  lemma MembersAgree(v: Json, schema: Json)
    requires schema.Obj? && WellFormedRequired(schema)
    ensures MembersAccept(v, schema) <==> Asserted(Required, v, schema) && Asserted(AdditionalProperties, v, schema)
  {
    hide Name, HasOwn, HasMember;
    if v.Obj? {
      forall key: string ensures HasOwn(v.fields, key) <==> HasMember(v.fields, key) {
        OwnIsMember(v.fields, key);
      }
      forall key: string
        ensures HasOwn(DeclaredProperties(schema), key) <==> HasMember(DeclaredProperties(schema), key)
      {
        OwnIsMember(DeclaredProperties(schema), key);
      }
      RequiredAgrees(v, schema);
    }
  }

  lemma RequiredAgrees(v: Json, schema: Json)
    requires schema.Obj? && WellFormedRequired(schema) && v.Obj?
    requires forall key :: HasOwn(v.fields, key) <==> HasMember(v.fields, key)
    ensures (forall i | 0 <= i < |RequiredEntries(schema)| && RequiredEntries(schema)[i].Str? ::
               HasOwn(v.fields, RequiredEntries(schema)[i].s))
            <==> Asserted(Required, v, schema)
  {
    hide Name, HasOwn, HasMember;
    match Declared(schema, Required)
    case Some(Arr(keys)) =>
      assert RequiredEntries(schema) == keys;
      if forall i | 0 <= i < |keys| && keys[i].Str? :: HasOwn(v.fields, keys[i].s) {
        forall key | Str(key) in keys ensures HasMember(v.fields, key) {
          var i :| 0 <= i < |keys| && keys[i] == Str(key);
          assert keys[i].Str?;
        }
      } else {
        var i :| 0 <= i < |keys| && keys[i].Str? && !HasOwn(v.fields, keys[i].s);
        assert Str(keys[i].s) in keys && !HasMember(v.fields, keys[i].s);
        assert !AssertionHolds(Required, Arr(keys), v, schema);
      }
    case _ =>
  }

  lemma OwnIsMember(fields: seq<Field>, key: string)
    ensures HasOwn(fields, key) <==> HasMember(fields, key)
  {
    if HasOwn(fields, key) { assert fields[Find(fields, key)] in fields; }
  }

  lemma BoundsAgree(v: Json, schema: Json)
    requires schema.Obj? && WellFormedShape(schema)
    ensures BoundsAccept(v, schema)
            <==> (&& Asserted(MinItems, v, schema) && Asserted(MaxItems, v, schema)
                  && Asserted(MinLength, v, schema) && Asserted(MaxLength, v, schema)
                  && Asserted(Minimum, v, schema) && Asserted(Maximum, v, schema))
  {
    hide Declared, Name;
    match v
    case Str(_) => case Arr(_) => case Num(_) => case _ =>
  }
}
