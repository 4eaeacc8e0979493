/** What callers of src/core/json-schema.ts may rely on, and where its promise to never fail open stops. */
module JsonSchemaTheorems {
  import opened Options
  import opened JsonValues
  import opened JsonSchema
  import opened JsonSchemaDefinition
  import opened JsonSchemaStrict
  import Meaning = JsonSchemaMeaning

  /** A definition the checker has no issue with is evaluated exactly, on every value. */
  lemma CheckedSchemaIsExact(v: Json, schema: Json)
    requires schema.Obj? && DefinitionIssues(schema, [], 0) == []
    ensures NodeErrors(v, schema, [], 0) == [] <==> Strict(v, schema)
    ensures NoDepthError(NodeErrors(v, schema, [], 0))
  {
    hide *;
    NoIssuesIffWellFormed(schema, [], 0);
    NeverTooDeep(v, schema, [], 0);
    VerdictIsStrict(v, schema, [], 0);
  }

  lemma VerdictIsStrict(v: Json, schema: Json, path: Path, depth: nat)
    requires schema.Obj? && WellFormed(schema, depth, MAX_DEFINITION_DEPTH)
    ensures NodeErrors(v, schema, path, depth) == [] <==> Strict(v, schema)
  {
    hide NodeErrors, Strict, Meaning.Accepts, WellFormed;
    Meaning.VerdictIsAccepts(v, schema, path, depth);
    Agreement(true, v, schema, depth, MAX_DEFINITION_DEPTH);
  }

  predicate NoDepthError(errors: seq<Error>) {
    forall e | e in errors :: !e.TooDeep?
  }

  /** The definition checker bounds the nesting of every subschema the validator can reach. */
  lemma {:induction false} NeverTooDeep(v: Json, schema: Json, path: Path, depth: nat)
    requires schema.Obj? && WellFormed(schema, depth, MAX_DEFINITION_DEPTH)
    ensures NoDepthError(NodeErrors(v, schema, path, depth))
    decreases schema, 3
  {
    hide CombinatorErrors, OwnErrors, WellFormedSubschemas;
    CombinatorsNeverTooDeep(v, schema, path, depth);
    OwnNeverTooDeep(v, schema, path, depth);
  }

  lemma {:induction false} CombinatorsNeverTooDeep(v: Json, schema: Json, path: Path, depth: nat)
    requires schema.Obj? && WellFormedSubschemas(schema, depth, MAX_DEFINITION_DEPTH)
    ensures NoDepthError(CombinatorErrors(v, schema, path, depth))
    decreases schema, 2
  {
    hide AllOfErrors, WellFormedBranches, WellFormedProperties, WellFormedChild, Branches, Name;
    AllOfNeverTooDeep(v, schema, path, depth);
  }

  lemma {:induction false} OwnNeverTooDeep(v: Json, schema: Json, path: Path, depth: nat)
    requires schema.Obj? && WellFormedSubschemas(schema, depth, MAX_DEFINITION_DEPTH)
    ensures NoDepthError(OwnErrors(v, schema, path, depth))
    decreases schema, 2
  {
    hide ElementErrors, PropertyErrors, MissingErrors, ExtraErrors, WellFormedBranches, WellFormed,
         WellFormedRequired, BoundErrors, RequiredEntries, Name;
    BoundsNeverTooDeep(v, schema, path);
    match v
    case Arr(elems) =>
      if IsRecord(Declared(schema, Items)) {
        assert WellFormedChild(schema, Items, depth, MAX_DEFINITION_DEPTH);
        ElementsNeverTooDeep(elems, schema, Declared(schema, Items).value, path, depth);
      }
    case Obj(record) =>
      assert WellFormedProperties(schema, depth, MAX_DEFINITION_DEPTH);
      MissingNeverTooDeep(record, RequiredEntries(schema), path);
      ExtraNeverTooDeep(record, DeclaredProperties(schema), path);
      PropertiesNeverTooDeep(record, schema, DeclaredProperties(schema), path, depth);
    case _ =>
  }

  lemma BoundsNeverTooDeep(v: Json, schema: Json, path: Path)
    requires schema.Obj?
    ensures forall low, high, measure :: NoDepthError(BoundErrors(schema, low, high, measure, path))
  {
  }

  lemma MissingNeverTooDeep(record: seq<Field>, keys: seq<Json>, path: Path)
    ensures NoDepthError(MissingErrors(record, keys, path))
  {
  }

  lemma ExtraNeverTooDeep(record: seq<Field>, props: seq<Field>, path: Path)
    ensures NoDepthError(ExtraErrors(record, props, path))
  {
  }

  lemma {:induction false} AllOfNeverTooDeep(v: Json, schema: Json, path: Path, depth: nat)
    requires schema.Obj? && WellFormedBranches(schema, AllOf, depth, MAX_DEFINITION_DEPTH)
    ensures NoDepthError(AllOfErrors(v, schema, Branches(schema, AllOf), path, depth))
    decreases schema, 1
  {
    hide NodeErrors, WellFormed, AllWellFormed, Name;
    match Declared(schema, AllOf)
    case Some(Arr(branches)) =>
      AllRecords(schema, branches, depth, MAX_DEFINITION_DEPTH);
      BranchesNeverTooDeep(v, schema, branches, path, depth);
    case _ =>
  }

  lemma {:induction false} BranchesNeverTooDeep(v: Json, schema: Json, branches: seq<Json>, path: Path, depth: nat)
    requires forall b :: b in branches ==> b.Obj? && b < schema
    requires AllWellFormed(schema, branches, depth, MAX_DEFINITION_DEPTH)
    ensures NoDepthError(AllOfErrors(v, schema, branches, path, depth))
    decreases schema, 0, |branches|
  {
    hide NodeErrors, WellFormed;
    if branches != [] {
      var n := |branches| - 1;
      assert branches[n] in branches;
      BranchesNeverTooDeep(v, schema, branches[..n], path, depth);
      NeverTooDeep(v, branches[n], path, depth + 1);
    }
  }

  lemma {:induction false} ElementsNeverTooDeep(elems: seq<Json>, schema: Json, items: Json, path: Path, depth: nat)
    requires items.Obj? && items < schema && WellFormed(items, depth + 1, MAX_DEFINITION_DEPTH)
    ensures NoDepthError(ElementErrors(elems, schema, items, path, depth))
    decreases schema, 0, |elems|
  {
    hide NodeErrors, WellFormed;
    if elems != [] {
      var n := |elems| - 1;
      ElementsNeverTooDeep(elems[..n], schema, items, path, depth);
      NeverTooDeep(elems[n], items, path + [Index(n)], depth + 1);
    }
  }

  lemma {:induction false} PropertiesNeverTooDeep(
    record: seq<Field>, schema: Json, props: seq<Field>, path: Path, depth: nat)
    requires forall p :: p in props ==> p.value < schema
    requires AllPropertiesWellFormed(schema, props, depth, MAX_DEFINITION_DEPTH)
    ensures NoDepthError(PropertyErrors(record, schema, props, path, depth))
    decreases schema, 0, |props|
  {
    hide NodeErrors, WellFormed;
    if props != [] {
      var n := |props| - 1;
      var p := props[n];
      PropertiesNeverTooDeep(record, schema, props[..n], path, depth);
      if HasOwn(record, p.key) && p.value.Obj? {
        NeverTooDeep(Get(record, p.key).value, p.value, path + [Property(p.key)], depth + 1);
      }
    }
  }

  /** The subset fails closed at any depth, well beyond the bound of the definition walk, as long as no `not` and
      no `oneOf` has a subschema that reaches past the bound: a value it accepts is valid. */
  lemma FailsClosed(v: Json, schema: Json, limit: nat)
    requires schema.Obj? && WellFormed(schema, 0, limit) && NegationShallow(schema, 0)
    requires NodeErrors(v, schema, [], 0) == []
    ensures Strict(v, schema)
  {
    hide NodeErrors, Strict, Meaning.Accepts, WellFormed, NegationShallow;
    Meaning.VerdictIsAccepts(v, schema, [], 0);
    Agreement(false, v, schema, 0, limit);
  }

  /** The condition covers every definition without issues. */
  lemma {:induction false} CheckedIsShallow(schema: Json, depth: nat)
    requires schema.Obj? && WellFormed(schema, depth, MAX_DEFINITION_DEPTH)
    ensures NegationShallow(schema, depth)
    decreases schema, 1
  {
    hide AllWellFormed, AllPropertiesWellFormed, WellFormedType, WellFormedEnum, WellFormedShape, WellFormedRequired,
         ListNegationShallow, PropertiesNegationShallow, Name;
    assert WellFormedSubschemas(schema, depth, MAX_DEFINITION_DEPTH);
    BranchesAreShallow(schema, AllOf, depth);
    BranchesAreShallow(schema, AnyOf, depth);
    if IsRecord(Declared(schema, Items)) {
      assert WellFormedChild(schema, Items, depth, MAX_DEFINITION_DEPTH);
      CheckedIsShallow(Declared(schema, Items).value, depth + 1);
    }
    assert WellFormedProperties(schema, depth, MAX_DEFINITION_DEPTH);
    DeclaredAreShallow(schema, depth);
  }

  lemma {:induction false} DeclaredAreShallow(schema: Json, depth: nat)
    requires schema.Obj? && WellFormedProperties(schema, depth, MAX_DEFINITION_DEPTH)
    ensures PropertiesNegationShallow(schema, DeclaredProperties(schema), depth)
    decreases schema, 0, 1, 0
  {
    hide WellFormed, AllPropertiesWellFormed, Name, NegationShallow;
    match Declared(schema, Properties)
    case Some(Obj(props)) => PropertiesAreShallow(schema, props, depth);
    case _ =>
  }

  lemma {:induction false} BranchesAreShallow(schema: Json, k: Keyword, depth: nat)
    requires schema.Obj? && WellFormedBranches(schema, k, depth, MAX_DEFINITION_DEPTH)
    ensures ListNegationShallow(schema, Branches(schema, k), depth)
    decreases schema, 0, 1, 0
  {
    hide WellFormed, AllWellFormed, Name, NegationShallow;
    match Declared(schema, k)
    case Some(Arr(branches)) =>
      AllRecords(schema, branches, depth, MAX_DEFINITION_DEPTH);
      ListIsShallow(schema, branches, depth);
    case _ =>
  }

  lemma {:induction false} ListIsShallow(schema: Json, branches: seq<Json>, depth: nat)
    requires forall b :: b in branches ==> b.Obj? && b < schema
    requires AllWellFormed(schema, branches, depth, MAX_DEFINITION_DEPTH)
    ensures ListNegationShallow(schema, branches, depth)
    decreases schema, 0, 0, |branches|
  {
    hide WellFormed, NegationShallow;
    if branches != [] {
      var n := |branches| - 1;
      assert branches[n] in branches;
      ListIsShallow(schema, branches[..n], depth);
      CheckedIsShallow(branches[n], depth + 1);
    }
  }

  lemma {:induction false} PropertiesAreShallow(schema: Json, props: seq<Field>, depth: nat)
    requires forall p :: p in props ==> p.value < schema
    requires AllPropertiesWellFormed(schema, props, depth, MAX_DEFINITION_DEPTH)
    ensures PropertiesNegationShallow(schema, props, depth)
    decreases schema, 0, 0, |props|
  {
    hide WellFormed, NegationShallow;
    if props != [] {
      var n := |props| - 1;
      PropertiesAreShallow(schema, props[..n], depth);
      if props[n].value.Obj? {
        CheckedIsShallow(props[n].value, depth + 1);
      }
    }
  }

  // ------------------------------------------ with `not`, it can fail open

  /** `n` single-branch `allOf`s around the schema that accepts everything. */
  function Nest(n: nat): (schema: Json)
    ensures schema.Obj?
  {
    if n == 0 then Obj([]) else Obj([Field(Name(AllOf), Arr([Nest(n - 1)]))])
  }

  /** The schema that accepts nothing, spelled `not` over the former. */
  function Never(n: nat): (schema: Json)
    ensures schema.Obj?
  {
    Obj([Field(Name(Not), Nest(n))])
  }

  /** `schema` declares the one keyword `only`, or nothing when `only` is None. */
  ghost predicate Declares(schema: Json, only: Option<(Keyword, Json)>) {
    && schema.Obj?
    && forall k :: Declared(schema, k) == if only.Some? && k == only.value.0 then Some(only.value.1) else None
  }

  lemma OneKeyword(only: Keyword, arg: Json)
    ensures Declares(Obj([Field(Name(only), arg)]), Some((only, arg)))
  {
    hide Name;
    forall k: Keyword { NameIsInjective(only, k); }
  }

  /** The keywords that are absent constrain nothing. */
  lemma NothingDeclared(v: Json, schema: Json, only: Option<(Keyword, Json)>, depth: nat)
    requires Declares(schema, only) && (only.Some? ==> only.value.0 == AllOf || only.value.0 == Not)
    ensures TypeAllows(v, schema) && EnumAllows(v, schema) && Meaning.OwnAssertions(v, schema)
    ensures Meaning.ChildrenAccept(v, schema, depth)
    ensures AssertionsHold(v, schema)
  {
    hide Declared;
    assert DeclaredProperties(schema) == [];
    NothingAsserted(v, schema, only);
  }

  lemma NothingAsserted(v: Json, schema: Json, only: Option<(Keyword, Json)>)
    requires Declares(schema, only) && (only.Some? ==> only.value.0 == AllOf || only.value.0 == Not)
    ensures AssertionsHold(v, schema)
  {
    hide Declared;
  }

  lemma JustNothing(v: Json, schema: Json, depth: nat)
    requires Declares(schema, None)
    ensures Meaning.Accepts(v, schema, depth) <==> depth <= MAX_DEFINITION_DEPTH
    ensures Strict(v, schema)
  {
    hide Declared, TypeAllows, EnumAllows, Meaning.OwnAssertions, Meaning.ChildrenAccept, AssertionsHold;
    NothingDeclared(v, schema, None, depth);
  }

  lemma JustAllOf(v: Json, schema: Json, b: Json, depth: nat)
    requires Declares(schema, Some((AllOf, Arr([b])))) && b.Obj?
    ensures Meaning.Accepts(v, schema, depth) <==> depth <= MAX_DEFINITION_DEPTH && Meaning.Accepts(v, b, depth + 1)
  {
    hide Declared, TypeAllows, EnumAllows, Meaning.OwnAssertions, Meaning.ChildrenAccept;
    NothingDeclared(v, schema, Some((AllOf, Arr([b]))), depth);
    assert Declared(schema, AllOf) == Some(Arr([b]));
    assert Branches(schema, AllOf) == RecordsOf([b]) == [b];
    JustOneBranch(v, schema, b, depth);
    JustOneVerdict(Meaning.Accepts(v, b, depth + 1));
    assert Meaning.CombinatorsAccept(v, schema, depth) <==> Meaning.Accepts(v, b, depth + 1);
  }

  lemma JustAllOfStrict(v: Json, schema: Json, b: Json)
    requires Declares(schema, Some((AllOf, Arr([b])))) && b.Obj?
    ensures Strict(v, schema) <==> Strict(v, b)
  {
    hide Declared, AssertionsHold, BranchesStrict;
    NothingDeclared(v, schema, Some((AllOf, Arr([b]))), 0);
    JustOneBranchStrict(v, schema, b);
    JustOneVerdict(Strict(v, b));
    assert ApplicatorsHold(v, schema) <==> Strict(v, b);
  }

  lemma JustOneBranchStrict(v: Json, schema: Json, b: Json)
    requires Declares(schema, Some((AllOf, Arr([b])))) && b.Obj?
    ensures BranchesStrict(v, schema, AllOf) == [Strict(v, b)]
  {
    hide Declared, Strict, ListStrict;
    assert Declared(schema, AllOf) == Some(Arr([b]));
    assert Branches(schema, AllOf) == RecordsOf([b]) == [b];
    JustOneBranch(v, schema, b, 0);
  }

  lemma JustOneVerdict(verdict: bool)
    ensures Meaning.AllOf([verdict]) <==> verdict
  {
    assert [verdict][0] == verdict;
  }

  lemma JustOneBranch(v: Json, schema: Json, b: Json, depth: nat)
    requires b.Obj? && b < schema
    ensures Meaning.Verdicts(v, schema, [b], depth) == [Meaning.Accepts(v, b, depth + 1)]
    ensures ListStrict(v, schema, [b]) == [Strict(v, b)]
  {
    hide Strict, Meaning.Accepts;
    assert [b][..0] == [];
  }

  lemma JustNot(v: Json, schema: Json, b: Json, depth: nat)
    requires Declares(schema, Some((Not, b))) && b.Obj?
    ensures Meaning.Accepts(v, schema, depth) <==> depth <= MAX_DEFINITION_DEPTH && !Meaning.Accepts(v, b, depth + 1)
    ensures Strict(v, schema) <==> !Strict(v, b)
  {
    hide Declared, TypeAllows, EnumAllows, Meaning.OwnAssertions, Meaning.ChildrenAccept, AssertionsHold;
    NothingDeclared(v, schema, Some((Not, b)), depth);
    assert ChildStrict(v, b) <==> Strict(v, b);
    assert ApplicatorsHold(v, schema) <==> !ChildStrict(v, b);
  }

  lemma JustNotShallow(schema: Json, b: Json, depth: nat)
    requires Declares(schema, Some((Not, b))) && b.Obj?
    ensures NegationShallow(schema, depth) <==> WellFormed(b, depth + 1, MAX_DEFINITION_DEPTH)
  {
    hide Declared, WellFormed;
    assert Declared(schema, Not) == Some(b);
    assert forall k | k != Not :: Declared(schema, k) == None;
  }

  lemma {:induction false} NestAccepts(v: Json, n: nat, depth: nat)
    ensures Meaning.Accepts(v, Nest(n), depth) <==> depth + n <= MAX_DEFINITION_DEPTH
    ensures Strict(v, Nest(n))
    decreases n
  {
    hide Name, Meaning.Accepts, Strict, Declares;
    if n == 0 {
      NoKeyword();
      JustNothing(v, Nest(0), depth);
    } else {
      NestAccepts(v, n - 1, depth + 1);
      OneKeyword(AllOf, Arr([Nest(n - 1)]));
      assert Nest(n) == Obj([Field(Name(AllOf), Arr([Nest(n - 1)]))]);
      JustAllOf(v, Nest(n), Nest(n - 1), depth);
      JustAllOfStrict(v, Nest(n), Nest(n - 1));
    }
  }

  lemma NoKeyword()
    ensures Declares(Obj([]), None)
  {
    hide Name;
  }

  lemma SupportedNames()
    ensures Name(AllOf) !in UNSUPPORTED_KEYWORDS && Name(Not) !in UNSUPPORTED_KEYWORDS
  {
  }

  /** One combinator over one schema is as well formed as that schema, one level down. */
  lemma OneChildWellFormed(schema: Json, only: Keyword, arg: Json, b: Json, depth: nat)
    requires Declares(schema, Some((only, arg))) && b.Obj?
    requires (only == AllOf && arg == Arr([b])) || (only == Not && arg == b)
    requires forall f | f in schema.fields :: f.key == Name(only)
    ensures WellFormed(schema, depth, MAX_DEFINITION_DEPTH)
            <==> depth <= MAX_DEFINITION_DEPTH && WellFormed(b, depth + 1, MAX_DEFINITION_DEPTH)
  {
    hide Declared, Name, WellFormed;
    SupportedNames();
    forall k: Keyword | k != only ensures Declared(schema, k) == None {
    }
    OneChildSubschemas(schema, only, arg, b, depth);
    OneChildNode(schema, only, arg, depth);
  }

  lemma OneChildNode(schema: Json, only: Keyword, arg: Json, depth: nat)
    requires Declares(schema, Some((only, arg))) && (only == AllOf || only == Not)
    requires forall f | f in schema.fields :: f.key == Name(only)
    requires Name(only) !in UNSUPPORTED_KEYWORDS
    ensures WellFormed(schema, depth, MAX_DEFINITION_DEPTH)
            <==> depth <= MAX_DEFINITION_DEPTH && WellFormedSubschemas(schema, depth, MAX_DEFINITION_DEPTH)
  {
    hide Declared, Name, WellFormedSubschemas;
    assert WellFormedType(schema) && WellFormedEnum(schema) && WellFormedShape(schema);
  }

  lemma OneChildSubschemas(schema: Json, only: Keyword, arg: Json, b: Json, depth: nat)
    requires Declares(schema, Some((only, arg))) && b.Obj?
    requires (only == AllOf && arg == Arr([b])) || (only == Not && arg == b)
    ensures WellFormedSubschemas(schema, depth, MAX_DEFINITION_DEPTH)
            <==> WellFormed(b, depth + 1, MAX_DEFINITION_DEPTH)
  {
    hide Declared, Name, WellFormed;
    if only == AllOf {
      assert Declared(schema, AllOf) == Some(Arr([b]));
      assert [b][..0] == [] && b in [b];
      assert AllWellFormed(schema, [b], depth, MAX_DEFINITION_DEPTH)
             <==> WellFormed(b, depth + 1, MAX_DEFINITION_DEPTH);
    } else {
      assert Declared(schema, Not) == Some(b);
    }
  }

  /** The definition walk follows the nesting exactly to the bound. */
  lemma {:induction false} NestIsWellFormed(n: nat, depth: nat)
    ensures WellFormed(Nest(n), depth, MAX_DEFINITION_DEPTH) <==> depth + n <= MAX_DEFINITION_DEPTH
    decreases n
  {
    hide Name, Declares, WellFormed;
    if n == 0 {
      NoKeyword();
      EmptyIsWellFormed(depth);
    } else {
      NestIsWellFormed(n - 1, depth + 1);
      OneKeyword(AllOf, Arr([Nest(n - 1)]));
      assert Nest(n) == Obj([Field(Name(AllOf), Arr([Nest(n - 1)]))]);
      OneChildWellFormed(Nest(n), AllOf, Arr([Nest(n - 1)]), Nest(n - 1), depth);
    }
  }

  lemma EmptyIsWellFormed(depth: nat)
    ensures WellFormed(Obj([]), depth, MAX_DEFINITION_DEPTH) <==> depth <= MAX_DEFINITION_DEPTH
  {
    hide Name, Declared;
    NoKeyword();
    assert forall k :: Declared(Obj([]), k) == None;
    assert WellFormedType(Obj([])) && WellFormedEnum(Obj([])) && WellFormedShape(Obj([]));
    assert WellFormedSubschemas(Obj([]), depth, MAX_DEFINITION_DEPTH);
  }

  /** `Never(n)` accepts no value, yet the validator accepts every value as soon as the depth bound
      falls inside the `not`. The definition walk reports exactly those schemas. */
  lemma NegationFailsOpen(v: Json, n: nat)
    ensures !Strict(v, Never(n))
    ensures NodeErrors(v, Never(n), [], 0) == [] <==> n >= 64
    ensures DefinitionIssues(Never(n), [], 0) != [] <==> n >= 64
    ensures NegationShallow(Never(n), 0) <==> n < 64
  {
    hide NegationShallow, Meaning.Accepts, Strict, Declares, Nest, NodeErrors, DefinitionIssues, WellFormed, Name;
    NestAccepts(v, n, 1);
    NestIsWellFormed(n, 1);
    OneKeyword(Not, Nest(n));
    assert Never(n) == Obj([Field(Name(Not), Nest(n))]);
    JustNot(v, Never(n), Nest(n), 0);
    Meaning.VerdictIsAccepts(v, Never(n), [], 0);
    OneChildWellFormed(Never(n), Not, Nest(n), Nest(n), 0);
    JustNotShallow(Never(n), Nest(n), 0);
    NoIssuesIffWellFormed(Never(n), [], 0);
  }

  // ------------------------------------------------------- what a length is

  predicate BasicPlane(s: string) {
    forall c | c in s :: !Supplementary(c)
  }

  /** Section 6.3 of the Validation specification counts characters. The validator's length checks
      agree with it on a string, whatever the bound, exactly when no character needs a surrogate pair. */
  lemma LengthChecksAgree(s: string)
    ensures BasicPlane(s)
            <==> forall bound: real :: Less(Finite(Utf16Length(s) as real), Finite(bound))
                                       == Less(Finite(|s| as real), Finite(bound))
  {
    UnitsAreCharacters(s);
    if Utf16Length(s) != |s| {
      var bound := Utf16Length(s) as real;
      assert !Less(Finite(Utf16Length(s) as real), Finite(bound)) && Less(Finite(|s| as real), Finite(bound));
    }
  }

  lemma {:induction false} UnitsAreCharacters(s: string)
    ensures BasicPlane(s) <==> Utf16Length(s) == |s|
  {
    if s != [] {
      UnitsAreCharacters(s[1..]);
      assert forall c :: c in s <==> c == s[0] || c in s[1..];
    }
  }
}
