/**
 * What the validator accepts and what it reports, spelled out for every schema object, malformed ones included:
 * an argument of the wrong shape constrains nothing, and every error points at the place in the value that it
 * is about.
 */
module JsonSchemaPermissive {
  import opened Options
  import opened JsonValues
  import opened JsonSchema
  import opened JsonSchemaStandard
  import Meaning = JsonSchemaMeaning
  import Strictly = JsonSchemaStrict

  // --------------------------------------------------- the verdict, spelled out

  /** A name, or an array of which only the names count. */
  ghost predicate TypePasses(v: Json, fields: seq<Field>) {
    match Get(fields, "type")
    case Some(Str(s)) => OfType(v, Str(s))
    case Some(Arr(ts)) => (forall t | t in ts :: !t.Str?) || exists t :: t in ts && t.Str? && OfType(v, t)
    case _ => true
  }

  predicate EnumPasses(v: Json, fields: seq<Field>) {
    match Get(fields, "enum")
    case Some(Arr(cs)) => cs == [] || (v in cs && !v.Arr? && !v.Obj? && v != Num(NaN))
    case _ => true
  }

  /** Only a number bounds, even NaN or an infinite one. */
  predicate RangePasses(n: Number, low: Option<Json>, high: Option<Json>) {
    LowPasses(n, low) && HighPasses(n, high)
  }

  predicate LowPasses(n: Number, low: Option<Json>) {
    low.Some? && low.value.Num? ==> !Precedes(n, low.value.n)
  }

  predicate HighPasses(n: Number, high: Option<Json>) {
    high.Some? && high.value.Num? ==> !Precedes(high.value.n, n)
  }

  predicate Precedes(a: Number, b: Number) {
    || (a.Finite? && b.Finite? && a.r < b.r)
    || (a == Infinite(true) && b.Finite?) || (a.Finite? && b == Infinite(false))
    || (a == Infinite(true) && b == Infinite(false))
  }

  ghost predicate OwnPasses(v: Json, fields: seq<Field>) {
    match v
    case Arr(elems) => RangePasses(Finite(|elems| as real), Get(fields, "minItems"), Get(fields, "maxItems"))
    case Str(s) => RangePasses(Finite(|Utf16(s)| as real), Get(fields, "minLength"), Get(fields, "maxLength"))
    case Num(n) => RangePasses(n, Get(fields, "minimum"), Get(fields, "maximum"))
    case Obj(record) => RequiredPasses(record, fields) && ClosedHolds(v, fields)
    case _ => true
  }

  ghost predicate RequiredPasses(record: seq<Field>, fields: seq<Field>) {
    match Get(fields, "required")
    case Some(Arr(keys)) => forall key | Str(key) in keys :: exists m :: m in record && m.key == key
    case _ => true
  }

  lemma {:induction false} NoStrings(ts: seq<Json>)
    requires StringsOf(ts) == []
    ensures forall t | t in ts :: !t.Str?
  {
    if ts != [] {
      NoStrings(ts[1..]);
    }
  }

  lemma TypesAre(v: Json, schema: Json)
    requires schema.Obj?
    ensures TypeAllows(v, schema) <==> TypePasses(v, schema.fields)
  {
    hide Name, OfType;
    Spelling();
    forall t: string ensures OfType(v, Str(t)) <==> MatchesType(TypeOf(v), t) {
      OfTypeIs(v, Str(t));
      Strictly.TypeNamesAgree(v, t);
    }
    hide MatchesType, TypeOf;
    match Get(schema.fields, "type")
    case Some(Str(s)) => assert ExpectedTypes(schema) == [s] && s in [s];
    case Some(Arr(ts)) =>
      var expected := StringsOf(ts);
      if expected == [] {
        NoStrings(ts);
      } else {
        assert expected[0] in expected && Str(expected[0]) in ts;
        if t :| t in ts && t.Str? && OfType(v, t) {
          assert t.s in expected;
        }
      }
    case _ =>
  }

  lemma EnumsAre(v: Json, schema: Json)
    requires schema.Obj?
    ensures EnumAllows(v, schema) <==> EnumPasses(v, schema.fields)
  {
    hide Name;
    Spelling();
  }

  lemma LessIs(a: Number, b: Number)
    ensures Less(a, b) <==> Precedes(a, b)
  {
  }

  lemma LowIs(schema: Json, k: Keyword, n: Number)
    requires schema.Obj?
    ensures BelowMinimum(schema, k, n) <==> !LowPasses(n, Get(schema.fields, Name(k)))
  {
    var bound := Declared(schema, k);
    hide Name, Get, Less, Precedes;
    if bound.Some? && bound.value.Num? {
      LessIs(n, bound.value.n);
    }
  }

  lemma HighIs(schema: Json, k: Keyword, n: Number)
    requires schema.Obj?
    ensures AboveMaximum(schema, k, n) <==> !HighPasses(n, Get(schema.fields, Name(k)))
  {
    var bound := Declared(schema, k);
    hide Name, Get, Less, Precedes;
    if bound.Some? && bound.value.Num? {
      LessIs(bound.value.n, n);
    }
  }

  lemma RangesAre(schema: Json, low: Keyword, high: Keyword, n: Number)
    requires schema.Obj?
    ensures Meaning.InBounds(schema, low, high, n)
            <==> RangePasses(n, Get(schema.fields, Name(low)), Get(schema.fields, Name(high)))
  {
    hide Name, Get, LowPasses, HighPasses, BelowMinimum, AboveMaximum;
    LowIs(schema, low, n);
    HighIs(schema, high, n);
  }

  lemma RecordsAre(record: seq<Field>, schema: Json)
    requires schema.Obj?
    ensures Meaning.OwnAssertions(Obj(record), schema)
            <==> RequiredPasses(record, schema.fields) && ClosedHolds(Obj(record), schema.fields)
  {
    hide Name;
    Spelling();
    forall fields: seq<Field>, key: string ensures HasOwn(fields, key) <==> exists m :: m in fields && m.key == key {
      Strictly.OwnIsMember(fields, key);
    }
    hide HasOwn, Get;
    var entries := RequiredEntries(schema);
    if forall i | 0 <= i < |entries| && entries[i].Str? :: HasOwn(record, entries[i].s) {
      forall key | Str(key) in entries ensures HasOwn(record, key) {
        var i :| 0 <= i < |entries| && entries[i] == Str(key);
        assert entries[i].Str?;
      }
    } else {
      var i :| 0 <= i < |entries| && entries[i].Str? && !HasOwn(record, entries[i].s);
      assert Str(entries[i].s) in entries;
    }
  }

  lemma OwnIs(v: Json, schema: Json)
    requires schema.Obj?
    ensures Meaning.OwnAssertions(v, schema) <==> OwnPasses(v, schema.fields)
  {
    hide Name, Get, RangePasses, RequiredPasses, ClosedHolds, Meaning.InBounds, Utf16, Utf16Length;
    Spelling();
    match v
    case Arr(elems) => RangesAre(schema, MinItems, MaxItems, Finite(|elems| as real));
    case Str(s) =>
      LengthIsUtf16(s);
      RangesAre(schema, MinLength, MaxLength, Finite(Utf16Length(s) as real));
    case Num(n) => RangesAre(schema, Minimum, Maximum, n);
    case Obj(record) => RecordsAre(record, schema);
    case _ =>
  }

  // Subschemas: those that are objects.

  ghost predicate Passes(v: Json, b: Json, depth: nat) {
    b.Obj? && Meaning.Accepts(v, b, depth + 1)
  }

  ghost predicate EachPasses(v: Json, bs: seq<Json>, depth: nat) {
    forall b | b in bs :: Passes(v, b, depth)
  }

  ghost predicate SomePasses(v: Json, bs: seq<Json>, depth: nat) {
    exists b :: b in bs && Passes(v, b, depth)
  }

  ghost predicate JustOnePasses(v: Json, bs: seq<Json>, depth: nat) {
    exists i ::
      0 <= i < |bs| && Passes(v, bs[i], depth) && forall j | 0 <= j < |bs| && Passes(v, bs[j], depth) :: j == i
  }

  ghost predicate CombinatorsPass(v: Json, schema: Json, depth: nat)
    requires schema.Obj?
  {
    var f := schema.fields;
    && EachPasses(v, RecordsOf(Schemas(f, "allOf")), depth)
    && (RecordsOf(Schemas(f, "anyOf")) != [] ==> SomePasses(v, RecordsOf(Schemas(f, "anyOf")), depth))
    && (RecordsOf(Schemas(f, "oneOf")) != [] ==> JustOnePasses(v, RecordsOf(Schemas(f, "oneOf")), depth))
    && (Get(f, "not").Some? ==> !Passes(v, Get(f, "not").value, depth))
  }

  ghost predicate MemberPasses(record: seq<Field>, p: Field, depth: nat) {
    Get(record, p.key).Some? && p.value.Obj? ==> Passes(Get(record, p.key).value, p.value, depth)
  }

  ghost predicate ChildrenPass(v: Json, schema: Json, depth: nat)
    requires schema.Obj?
  {
    var f := schema.fields;
    && (v.Arr? && Get(f, "items").Some? && Get(f, "items").value.Obj? ==>
          forall e | e in v.elems :: Passes(e, Get(f, "items").value, depth))
    && (v.Obj? && Get(f, "properties").Some? && Get(f, "properties").value.Obj? ==>
          forall p | p in Get(f, "properties").value.fields :: MemberPasses(v.fields, p, depth))
  }

  lemma {:induction false} BranchVerdicts(v: Json, schema: Json, branches: seq<Json>, depth: nat)
    requires forall b :: b in branches ==> b.Obj? && b < schema
    ensures forall i | 0 <= i < |branches| ::
              Meaning.Verdicts(v, schema, branches, depth)[i] <==> Passes(v, branches[i], depth)
    decreases |branches|
  {
    hide Meaning.Accepts;
    if branches != [] {
      var n := |branches| - 1;
      assert branches[n] in branches;
      BranchVerdicts(v, schema, branches[..n], depth);
    }
  }

  lemma EachMeans(v: Json, bs: seq<Json>, verdicts: seq<bool>, depth: nat)
    requires |verdicts| == |bs| && forall i | 0 <= i < |bs| :: verdicts[i] <==> Passes(v, bs[i], depth)
    ensures Meaning.AllOf(verdicts) <==> EachPasses(v, bs, depth)
  {
    hide Passes;
    if Meaning.AllOf(verdicts) {
      forall b | b in bs ensures Passes(v, b, depth) {
        var i :| 0 <= i < |bs| && bs[i] == b;
        assert verdicts[i];
      }
    } else {
      var i :| 0 <= i < |verdicts| && !verdicts[i];
      assert bs[i] in bs;
    }
  }

  lemma SomeMeans(v: Json, bs: seq<Json>, verdicts: seq<bool>, depth: nat)
    requires |verdicts| == |bs| && forall i | 0 <= i < |bs| :: verdicts[i] <==> Passes(v, bs[i], depth)
    ensures Meaning.AnyOf(verdicts) <==> SomePasses(v, bs, depth)
  {
    hide Passes;
    if SomePasses(v, bs, depth) {
      var b :| b in bs && Passes(v, b, depth);
      var i :| 0 <= i < |bs| && bs[i] == b;
      assert verdicts[i];
    }
    if Meaning.AnyOf(verdicts) {
      var i :| 0 <= i < |verdicts| && verdicts[i];
      assert bs[i] in bs;
    }
  }

  lemma JustOneMeans(v: Json, bs: seq<Json>, verdicts: seq<bool>, depth: nat)
    requires |verdicts| == |bs| && forall i | 0 <= i < |bs| :: verdicts[i] <==> Passes(v, bs[i], depth)
    ensures Meaning.OneOf(verdicts) <==> JustOnePasses(v, bs, depth)
  {
    hide Passes;
    if Meaning.OneOf(verdicts) {
      var i :| 0 <= i < |verdicts| && verdicts[i] && forall j | 0 <= j < |verdicts| && verdicts[j] :: j == i;
      assert Passes(v, bs[i], depth);
    }
    if JustOnePasses(v, bs, depth) {
      var i :|
        0 <= i < |bs| && Passes(v, bs[i], depth) && forall j | 0 <= j < |bs| && Passes(v, bs[j], depth) :: j == i;
      assert verdicts[i];
    }
  }

  lemma VerdictsOf(v: Json, schema: Json, k: Keyword, depth: nat)
    requires schema.Obj?
    ensures Branches(schema, k) == RecordsOf(Schemas(schema.fields, Name(k)))
    ensures var bs := Branches(schema, k); var verdicts := Meaning.Verdicts(v, schema, bs, depth);
            && (Meaning.AllOf(verdicts) <==> EachPasses(v, bs, depth))
            && (Meaning.AnyOf(verdicts) <==> SomePasses(v, bs, depth))
            && (Meaning.OneOf(verdicts) <==> JustOnePasses(v, bs, depth))
  {
    BranchesAre(schema, k);
    hide Passes, Meaning.Verdicts, Name, Schemas, Branches, RecordsOf, EachPasses, SomePasses, JustOnePasses;
    hide Meaning.AllOf, Meaning.AnyOf, Meaning.OneOf;
    var bs := Branches(schema, k);
    BranchVerdicts(v, schema, bs, depth);
    EachMeans(v, bs, Meaning.Verdicts(v, schema, bs, depth), depth);
    SomeMeans(v, bs, Meaning.Verdicts(v, schema, bs, depth), depth);
    JustOneMeans(v, bs, Meaning.Verdicts(v, schema, bs, depth), depth);
  }

  lemma BranchesAre(schema: Json, k: Keyword)
    requires schema.Obj?
    ensures Branches(schema, k) == RecordsOf(Schemas(schema.fields, Name(k)))
  {
    hide Name;
  }

  lemma CombinatorsAre(v: Json, schema: Json, depth: nat)
    requires schema.Obj?
    ensures Meaning.CombinatorsAccept(v, schema, depth) <==> CombinatorsPass(v, schema, depth)
  {
    hide Meaning.Accepts, Name, Meaning.Verdicts, Meaning.AllOf, Meaning.AnyOf, Meaning.OneOf, Schemas, RecordsOf;
    hide EachPasses, SomePasses, JustOnePasses, Branches, Get;
    Spelling();
    VerdictsOf(v, schema, AllOf, depth);
    VerdictsOf(v, schema, AnyOf, depth);
    VerdictsOf(v, schema, OneOf, depth);
  }

  lemma {:induction false} ElementVerdicts(elems: seq<Json>, schema: Json, items: Json, depth: nat)
    requires items.Obj? && items < schema
    ensures Meaning.AllOf(Meaning.ElementVerdicts(elems, schema, items, depth))
            <==> forall e | e in elems :: Passes(e, items, depth)
    decreases |elems|
  {
    hide Meaning.Accepts, Meaning.AllOf;
    if elems == [] {
      assert Meaning.ElementVerdicts(elems, schema, items, depth) == [];
      NothingFails();
    } else {
      var n := |elems| - 1;
      ElementVerdicts(elems[..n], schema, items, depth);
      Meaning.AllOfSnoc(Meaning.ElementVerdicts(elems[..n], schema, items, depth),
                        Meaning.Accepts(elems[n], items, depth + 1));
      assert elems == elems[..n] + [elems[n]];
      assert Passes(elems[n], items, depth) <==> Meaning.Accepts(elems[n], items, depth + 1);
    }
  }

  lemma NothingFails()
    ensures Meaning.AllOf([])
  {
  }

  lemma {:induction false} MemberVerdicts(record: seq<Field>, schema: Json, props: seq<Field>, depth: nat)
    requires forall p :: p in props ==> p.value < schema
    ensures Meaning.AllOf(Meaning.PropertyVerdicts(record, schema, props, depth))
            <==> forall p | p in props :: MemberPasses(record, p, depth)
    decreases |props|
  {
    hide Meaning.Accepts, Meaning.AllOf, HasOwn, Find;
    if props == [] {
      assert Meaning.PropertyVerdicts(record, schema, props, depth) == [];
      NothingFails();
    } else {
      var n := |props| - 1;
      var p := props[n];
      MemberVerdicts(record, schema, props[..n], depth);
      Meaning.AllOfSnoc(
        Meaning.PropertyVerdicts(record, schema, props[..n], depth),
        HasOwn(record, p.key) && p.value.Obj? ==> Meaning.Accepts(Get(record, p.key).value, p.value, depth + 1));
      assert props == props[..n] + [p];
    }
  }

  lemma ChildrenAre(v: Json, schema: Json, depth: nat)
    requires schema.Obj?
    ensures Meaning.ChildrenAccept(v, schema, depth) <==> ChildrenPass(v, schema, depth)
  {
    hide Name, Meaning.AllOf, Meaning.ElementVerdicts, Meaning.PropertyVerdicts, Passes, MemberPasses, Get;
    Spelling();
    if v.Arr? && IsRecord(Declared(schema, Items)) {
      ElementVerdicts(v.elems, schema, Declared(schema, Items).value, depth);
    }
    if v.Obj? {
      MemberVerdicts(v.fields, schema, DeclaredProperties(schema), depth);
    }
  }

  /** The verdict on every value by every schema object, keyword by name: this equation holds everywhere, and by it
      the verdict follows from those of the subschemas. */
  lemma AcceptsIsSpelled(v: Json, schema: Json, depth: nat)
    requires schema.Obj?
    ensures NodeErrors(v, schema, [], depth) == [] <==>
            (&& depth <= 64
             && TypePasses(v, schema.fields) && EnumPasses(v, schema.fields) && OwnPasses(v, schema.fields)
             && CombinatorsPass(v, schema, depth) && ChildrenPass(v, schema, depth))
  {
    hide TypeAllows, EnumAllows, Meaning.OwnAssertions, Meaning.CombinatorsAccept, Meaning.ChildrenAccept, NodeErrors;
    hide TypePasses, EnumPasses, OwnPasses, CombinatorsPass, ChildrenPass;
    Meaning.VerdictIsAccepts(v, schema, [], depth);
    TypesAre(v, schema);
    EnumsAre(v, schema);
    OwnIs(v, schema);
    CombinatorsAre(v, schema, depth);
    ChildrenAre(v, schema, depth);
  }

  // ------------------------------------------------ where the errors point

  /** The part of a value that a path leads to. */
  function Resolve(v: Json, path: Path): Option<Json>
    decreases |path|
  {
    if path == [] then Some(v)
    else
      match path[0]
      case Property(key) =>
        if v.Obj? && Get(v.fields, key).Some? then Resolve(Get(v.fields, key).value, path[1..]) else None
      case Index(i) => if v.Arr? && i < |v.elems| then Resolve(v.elems[i], path[1..]) else None
  }

  /** What the error says is so of this part of the value. */
  ghost predicate Faulty(at: Json, e: Error) {
    match e
    case WrongType(_, expected, actual) => OfType(at, Str(actual)) && forall t | t in expected :: !OfType(at, Str(t))
    case ManyBranches(_, matched) => |matched| > 1
    case NoBranch(_, k, count) => count > 0 && (k == AnyOf || k == OneOf)
    case OutOfBounds(_, k) =>
      || (at.Str? && (k == MinLength || k == MaxLength))
      || (at.Arr? && (k == MinItems || k == MaxItems))
      || (at.Num? && (k == Minimum || k == Maximum))
    case MissingProperty(_, key) => at.Obj? && !exists m :: m in at.fields && m.key == key
    case UnexpectedProperty(_, key) => at.Obj? && exists m :: m in at.fields && m.key == key
    case _ => true
  }

  ghost predicate PointsHome(v: Json, path: Path, e: Error) {
    && |e.path| >= |path| && e.path[..|path|] == path
    && Resolve(v, e.path[|path|..]).Some? && Faulty(Resolve(v, e.path[|path|..]).value, e)
  }

  ghost predicate AllPointHome(v: Json, path: Path, errors: seq<Error>) {
    forall e | e in errors :: PointsHome(v, path, e)
  }

  lemma PointsHere(v: Json, path: Path, e: Error)
    requires e.path == path && Faulty(v, e)
    ensures PointsHome(v, path, e)
  {
    assert e.path[|path|..] == [];
  }

  /** An error of a part is an error of the whole. */
  lemma PointsThrough(v: Json, path: Path, step: Step, child: Json, errors: seq<Error>)
    requires AllPointHome(child, path + [step], errors)
    requires match step
             case Property(key) => v.Obj? && Get(v.fields, key) == Some(child)
             case Index(i) => v.Arr? && i < |v.elems| && v.elems[i] == child
    ensures AllPointHome(v, path, errors)
  {
    hide Faulty;
    forall e | e in errors ensures PointsHome(v, path, e) {
      var n := |path|;
      assert e.path[..n + 1] == path + [step];
      assert e.path[..n] == e.path[..n + 1][..n];
      assert e.path[n] == e.path[..n + 1][n];
      assert e.path[n..][0] == step && e.path[n..][1..] == e.path[n + 1..];
    }
  }

  /** Every error names a place in the value, below where validation started, and what it says is so there. */
  lemma {:induction false} ErrorsPointHome(v: Json, schema: Json, path: Path, depth: nat)
    requires schema.Obj?
    ensures AllPointHome(v, path, NodeErrors(v, schema, path, depth))
    decreases schema, 4
  {
    hide CombinatorErrors, OwnErrors, PointsHome, TypeAllows, EnumAllows, ExpectedTypes, TypeOf;
    if depth > MAX_DEFINITION_DEPTH {
      PointsHere(v, path, TooDeep(path));
    } else if !TypeAllows(v, schema) {
      WrongTypeIsWrong(v, schema, path);
    } else if !EnumAllows(v, schema) {
      PointsHere(v, path, NotInEnum(path));
    } else {
      CombinatorsPointHome(v, schema, path, depth);
      OwnPointHome(v, schema, path, depth);
    }
  }

  lemma WrongTypeIsWrong(v: Json, schema: Json, path: Path)
    requires schema.Obj? && !TypeAllows(v, schema)
    ensures PointsHome(v, path, WrongType(path, ExpectedTypes(schema), TypeOf(v)))
  {
    hide OfType, MatchesType, ExpectedTypes;
    forall t: string ensures OfType(v, Str(t)) <==> MatchesType(TypeOf(v), t) {
      OfTypeIs(v, Str(t));
      Strictly.TypeNamesAgree(v, t);
    }
    SelfMatches(TypeOf(v));
    PointsHere(v, path, WrongType(path, ExpectedTypes(schema), TypeOf(v)));
  }

  lemma SelfMatches(t: string)
    ensures MatchesType(t, t)
  {
  }

  lemma {:induction false} CombinatorsPointHome(v: Json, schema: Json, path: Path, depth: nat)
    requires schema.Obj?
    ensures AllPointHome(v, path, CombinatorErrors(v, schema, path, depth))
    decreases schema, 3
  {
    hide NodeErrors, AllOfErrors, PointsHome, Branches, Matched;
    BranchesPointHome(v, schema, Branches(schema, AllOf), path, depth);
    ChoicesPointHome(v, schema, AnyOf, path, depth);
    ChoicesPointHome(v, schema, OneOf, path, depth);
    PointsHere(v, path, Forbidden(path));
  }

  lemma ChoicesPointHome(v: Json, schema: Json, k: Keyword, path: Path, depth: nat)
    requires schema.Obj? && (k == AnyOf || k == OneOf)
    ensures AllPointHome(v, path, ChoiceErrors(v, schema, k, path, depth))
  {
    hide Matched, PointsHome, Branches;
    var branches := Branches(schema, k);
    var matched := Matched(v, schema, branches, path, depth);
    if branches != [] {
      PointsHere(v, path, NoBranch(path, k, |branches|));
    }
    if |matched| > 1 {
      PointsHere(v, path, ManyBranches(path, matched));
    }
  }

  lemma {:induction false} BranchesPointHome(v: Json, schema: Json, branches: seq<Json>, path: Path, depth: nat)
    requires forall b :: b in branches ==> b.Obj? && b < schema
    ensures AllPointHome(v, path, AllOfErrors(v, schema, branches, path, depth))
    decreases schema, 0, |branches|
  {
    hide NodeErrors, PointsHome;
    if branches != [] {
      var n := |branches| - 1;
      assert branches[n] in branches;
      BranchesPointHome(v, schema, branches[..n], path, depth);
      ErrorsPointHome(v, branches[n], path, depth + 1);
    }
  }

  lemma BoundsPointHome(v: Json, schema: Json, low: Keyword, high: Keyword, measure: Number, path: Path)
    requires schema.Obj? && Faulty(v, OutOfBounds(path, low)) && Faulty(v, OutOfBounds(path, high))
    ensures AllPointHome(v, path, BoundErrors(schema, low, high, measure, path))
  {
    hide PointsHome, BelowMinimum, AboveMaximum, Faulty;
    PointsHere(v, path, OutOfBounds(path, low));
    PointsHere(v, path, OutOfBounds(path, high));
  }

  lemma {:induction false} OwnPointHome(v: Json, schema: Json, path: Path, depth: nat)
    requires schema.Obj?
    ensures AllPointHome(v, path, OwnErrors(v, schema, path, depth))
    decreases schema, 3
  {
    hide PointsHome, BoundErrors, ElementErrors, MissingErrors, PropertyErrors, ExtraErrors, Declared, RequiredEntries;
    match v
    case Str(s) => BoundsPointHome(v, schema, MinLength, MaxLength, Finite(Utf16Length(s) as real), path);
    case Num(n) => BoundsPointHome(v, schema, Minimum, Maximum, n, path);
    case Arr(elems) =>
      BoundsPointHome(v, schema, MinItems, MaxItems, Finite(|elems| as real), path);
      if IsRecord(Declared(schema, Items)) {
        ElementsPointHome(v, elems, schema, Declared(schema, Items).value, path, depth);
      }
    case Obj(record) =>
      MissingPointHome(record, RequiredEntries(schema), path);
      PropertiesPointHome(record, schema, DeclaredProperties(schema), path, depth);
      ExtraPointHome(record, record, DeclaredProperties(schema), path);
    case _ =>
  }

  lemma {:induction false} ElementsPointHome(
    v: Json, elems: seq<Json>, schema: Json, items: Json, path: Path, depth: nat)
    requires items.Obj? && items < schema && v.Arr? && elems <= v.elems
    ensures AllPointHome(v, path, ElementErrors(elems, schema, items, path, depth))
    decreases schema, 0, |elems|
  {
    hide NodeErrors, PointsHome;
    if elems != [] {
      var n := |elems| - 1;
      ElementsPointHome(v, elems[..n], schema, items, path, depth);
      ErrorsPointHome(elems[n], items, path + [Index(n)], depth + 1);
      PointsThrough(v, path, Index(n), elems[n], NodeErrors(elems[n], items, path + [Index(n)], depth + 1));
    }
  }

  lemma {:induction false} MissingPointHome(record: seq<Field>, keys: seq<Json>, path: Path)
    ensures AllPointHome(Obj(record), path, MissingErrors(record, keys, path))
    decreases |keys|
  {
    hide PointsHome;
    if keys != [] {
      var key := keys[|keys| - 1];
      MissingPointHome(record, keys[..|keys| - 1], path);
      if key.Str? && !HasOwn(record, key.s) {
        Strictly.OwnIsMember(record, key.s);
        PointsHere(Obj(record), path, MissingProperty(path, key.s));
      }
    }
  }

  lemma {:induction false} ExtraPointHome(whole: seq<Field>, record: seq<Field>, props: seq<Field>, path: Path)
    requires record <= whole
    ensures AllPointHome(Obj(whole), path, ExtraErrors(record, props, path))
    decreases |record|
  {
    hide PointsHome, HasOwn;
    if record != [] {
      var n := |record| - 1;
      ExtraPointHome(whole, record[..n], props, path);
      assert record[n] in whole by { assert whole[n] == record[n]; }
      PointsHere(Obj(whole), path, UnexpectedProperty(path, record[n].key));
    }
  }

  lemma {:induction false} PropertiesPointHome(
    record: seq<Field>, schema: Json, props: seq<Field>, path: Path, depth: nat)
    requires forall p :: p in props ==> p.value < schema
    ensures AllPointHome(Obj(record), path, PropertyErrors(record, schema, props, path, depth))
    decreases schema, 0, |props|
  {
    hide NodeErrors, PointsHome, HasOwn, Get;
    if props != [] {
      var n := |props| - 1;
      var p := props[n];
      PropertiesPointHome(record, schema, props[..n], path, depth);
      if HasOwn(record, p.key) && p.value.Obj? {
        var child := Get(record, p.key).value;
        ErrorsPointHome(child, p.value, path + [Property(p.key)], depth + 1);
        PointsThrough(Obj(record), path, Property(p.key), child,
                      NodeErrors(child, p.value, path + [Property(p.key)], depth + 1));
      }
    }
  }
}
