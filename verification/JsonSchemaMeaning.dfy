/**
 * What the validator's error list means. Accepts is the permissive reading that
 * every schema object gets, however malformed; VerdictIsAccepts proves that the
 * list is empty exactly when it holds, so neither the early returns nor the
 * scratch lists of the combinators change a verdict.
 */
module JsonSchemaMeaning {
  import opened Options
  import opened JsonValues
  import opened JsonSchema

  // ------------------------------------------------------ permissive meaning

  predicate AllOf(verdicts: seq<bool>) {
    forall i | 0 <= i < |verdicts| :: verdicts[i]
  }

  predicate AnyOf(verdicts: seq<bool>) {
    exists i | 0 <= i < |verdicts| :: verdicts[i]
  }

  predicate OneOf(verdicts: seq<bool>) {
    exists i | 0 <= i < |verdicts| :: verdicts[i] && forall j | 0 <= j < |verdicts| && verdicts[j] :: j == i
  }

  ghost predicate Accepts(v: Json, schema: Json, depth: nat)
    requires schema.Obj?
    decreases schema, 3
  {
    && depth <= MAX_DEFINITION_DEPTH
    && TypeAllows(v, schema)
    && EnumAllows(v, schema)
    && CombinatorsAccept(v, schema, depth)
    && OwnAssertions(v, schema)
    && ChildrenAccept(v, schema, depth)
  }

  ghost predicate CombinatorsAccept(v: Json, schema: Json, depth: nat)
    requires schema.Obj?
    decreases schema, 2
  {
    && AllOf(Verdicts(v, schema, Branches(schema, Keyword.AllOf), depth))
    && (Branches(schema, Keyword.AnyOf) != [] ==> AnyOf(Verdicts(v, schema, Branches(schema, Keyword.AnyOf), depth)))
    && (Branches(schema, Keyword.OneOf) != [] ==> OneOf(Verdicts(v, schema, Branches(schema, Keyword.OneOf), depth)))
    && (IsRecord(Declared(schema, Not)) ==> !Accepts(v, Declared(schema, Not).value, depth + 1))
  }

  /** The verdict of each branch of a combinator, one schema level down. */
  ghost function Verdicts(v: Json, schema: Json, branches: seq<Json>, depth: nat): (r: seq<bool>)
    requires forall b :: b in branches ==> b.Obj? && b < schema
    ensures |r| == |branches|
    decreases schema, 1, |branches|
  {
    if branches == [] then []
    else
      var n := |branches| - 1;
      Verdicts(v, schema, branches[..n], depth) + [Accepts(v, branches[n], depth + 1)]
  }

  ghost predicate ChildrenAccept(v: Json, schema: Json, depth: nat)
    requires schema.Obj?
    decreases schema, 2
  {
    && (v.Arr? && IsRecord(Declared(schema, Items)) ==>
          AllOf(ElementVerdicts(v.elems, schema, Declared(schema, Items).value, depth)))
    && (v.Obj? ==> AllOf(PropertyVerdicts(v.fields, schema, DeclaredProperties(schema), depth)))
  }

  predicate OwnAssertions(v: Json, schema: Json)
    requires schema.Obj?
  {
    match v
    case Str(s) => InBounds(schema, MinLength, MaxLength, Finite(Utf16Length(s) as real))
    case Num(n) => InBounds(schema, Minimum, Maximum, n)
    case Arr(elems) => InBounds(schema, MinItems, MaxItems, Finite(|elems| as real))
    case Obj(record) =>
      && (forall i | 0 <= i < |RequiredEntries(schema)| && RequiredEntries(schema)[i].Str? ::
            HasOwn(record, RequiredEntries(schema)[i].s))
      && (Declared(schema, AdditionalProperties) == Some(Bool(false)) ==>
            forall f | f in record :: HasOwn(DeclaredProperties(schema), f.key))
    case _ => true
  }

  /** The verdict of `items` on each element. */
  ghost function ElementVerdicts(elems: seq<Json>, schema: Json, items: Json, depth: nat): seq<bool>
    requires items.Obj? && items < schema
    decreases schema, 1, |elems|
  {
    if elems == [] then []
    else
      var n := |elems| - 1;
      ElementVerdicts(elems[..n], schema, items, depth) + [Accepts(elems[n], items, depth + 1)]
  }

  /** The verdict of each declared property; one that the object lacks, or that declares no schema object, holds. */
  ghost function PropertyVerdicts(record: seq<Field>, schema: Json, props: seq<Field>, depth: nat): seq<bool>
    requires forall p :: p in props ==> p.value < schema
    decreases schema, 1, |props|
  {
    if props == [] then []
    else
      var n := |props| - 1;
      var p := props[n];
      PropertyVerdicts(record, schema, props[..n], depth)
      + [HasOwn(record, p.key) && p.value.Obj? ==> Accepts(Get(record, p.key).value, p.value, depth + 1)]
  }

  predicate InBounds(schema: Json, low: Keyword, high: Keyword, measure: Number)
    requires schema.Obj?
  {
    !BelowMinimum(schema, low, measure) && !AboveMaximum(schema, high, measure)
  }

  // ------------------------------------------- the error list has this meaning

  /** For every value and every schema object: no error exactly when Accepts. */
  lemma {:induction false} VerdictIsAccepts(v: Json, schema: Json, path: Path, depth: nat)
    requires schema.Obj?
    ensures NodeErrors(v, schema, path, depth) == [] <==> Accepts(v, schema, depth)
    decreases schema, 4
  {
    if depth <= MAX_DEFINITION_DEPTH && TypeAllows(v, schema) && EnumAllows(v, schema) {
      CombinatorVerdict(v, schema, path, depth);
      OwnVerdict(v, schema, path, depth);
    }
  }

  lemma {:induction false} CombinatorVerdict(v: Json, schema: Json, path: Path, depth: nat)
    requires schema.Obj?
    ensures CombinatorErrors(v, schema, path, depth) == [] <==> CombinatorsAccept(v, schema, depth)
    decreases schema, 3
  {
    hide NodeErrors, Accepts, AllOfErrors, ChoiceErrors, Verdicts, Branches;
    AllOfVerdict(v, schema, Branches(schema, Keyword.AllOf), path, depth);
    ChoiceVerdict(v, schema, Keyword.AnyOf, path, depth);
    ChoiceVerdict(v, schema, Keyword.OneOf, path, depth);
    if IsRecord(Declared(schema, Not)) {
      VerdictIsAccepts(v, Declared(schema, Not).value, path, depth + 1);
    }
  }

  lemma AllOfSnoc(verdicts: seq<bool>, last: bool)
    ensures AllOf(verdicts + [last]) <==> AllOf(verdicts) && last
  {
    assert (verdicts + [last])[|verdicts|] == last;
    assert forall i | 0 <= i < |verdicts| :: (verdicts + [last])[i] == verdicts[i];
  }

  lemma {:induction false} AllOfVerdict(v: Json, schema: Json, branches: seq<Json>, path: Path, depth: nat)
    requires forall b :: b in branches ==> b.Obj? && b < schema
    ensures AllOfErrors(v, schema, branches, path, depth) == [] <==> AllOf(Verdicts(v, schema, branches, depth))
    decreases schema, 1, |branches|
  {
    hide NodeErrors, Accepts;
    if branches != [] {
      var n := |branches| - 1;
      assert branches[n] in branches;
      AllOfVerdict(v, schema, branches[..n], path, depth);
      VerdictIsAccepts(v, branches[n], path, depth + 1);
      AllOfSnoc(Verdicts(v, schema, branches[..n], depth), Accepts(v, branches[n], depth + 1));
    }
  }

  /** No branch matched, exactly one did, or several: the three cases the code tells apart. */
  lemma {:induction false} ChoiceVerdict(v: Json, schema: Json, k: Keyword, path: Path, depth: nat)
    requires schema.Obj?
    ensures var verdicts := Verdicts(v, schema, Branches(schema, k), depth);
            ChoiceErrors(v, schema, k, path, depth) == []
            <==> (Branches(schema, k) != [] ==> if k == Keyword.OneOf then OneOf(verdicts) else AnyOf(verdicts))
    decreases schema, 2
  {
    hide NodeErrors, Accepts, Matched, Verdicts, Branches;
    var branches := Branches(schema, k);
    MatchedVerdict(v, schema, branches, path, depth);
    CountTrue(Verdicts(v, schema, branches, depth), Matched(v, schema, branches, path, depth));
  }

  /** `m` lists the true positions of `verdicts`, counting from 1. */
  predicate Positions(verdicts: seq<bool>, m: seq<nat>) {
    && (forall i, j :: 0 <= i < j < |m| ==> m[i] < m[j])
    && (forall i | 0 <= i < |m| :: 1 <= m[i] <= |verdicts| && verdicts[m[i] - 1])
    && (forall i | 0 <= i < |verdicts| && verdicts[i] :: i + 1 in m)
  }

  lemma CountTrue(verdicts: seq<bool>, m: seq<nat>)
    requires Positions(verdicts, m)
    ensures m != [] <==> AnyOf(verdicts)
    ensures |m| == 1 <==> OneOf(verdicts)
  {
    if AnyOf(verdicts) {
      var i :| 0 <= i < |verdicts| && verdicts[i];
      assert i + 1 in m;
    }
    if m != [] {
      var first: int := m[0] - 1;
      assert verdicts[first];
      if |m| == 1 {
        forall j | 0 <= j < |verdicts| && verdicts[j] ensures j == first { assert j + 1 in m; }
      } else if |m| > 1 {
        assert verdicts[m[1] - 1] && m[0] < m[1];
      }
    }
  }

  lemma {:induction false} MatchedVerdict(v: Json, schema: Json, branches: seq<Json>, path: Path, depth: nat)
    requires forall b :: b in branches ==> b.Obj? && b < schema
    ensures Positions(Verdicts(v, schema, branches, depth), Matched(v, schema, branches, path, depth))
    decreases schema, 1, |branches|
  {
    hide NodeErrors, Accepts;
    if branches != [] {
      var n := |branches| - 1;
      assert branches[n] in branches;
      MatchedVerdict(v, schema, branches[..n], path, depth);
      VerdictIsAccepts(v, branches[n], path, depth + 1);
      PositionsSnoc(Verdicts(v, schema, branches[..n], depth), Matched(v, schema, branches[..n], path, depth),
                    Accepts(v, branches[n], depth + 1));
    }
  }

  lemma PositionsSnoc(verdicts: seq<bool>, m: seq<nat>, last: bool)
    requires Positions(verdicts, m)
    ensures Positions(verdicts + [last], m + if last then [|verdicts| + 1] else [])
  {
  }

  lemma {:induction false} OwnVerdict(v: Json, schema: Json, path: Path, depth: nat)
    requires schema.Obj?
    ensures OwnErrors(v, schema, path, depth) == [] <==> OwnAssertions(v, schema) && ChildrenAccept(v, schema, depth)
    decreases schema, 3
  {
    hide AllOf, ElementErrors, ElementVerdicts, PropertyErrors, PropertyVerdicts, MissingErrors, ExtraErrors;
    match v
    case Arr(elems) =>
      if IsRecord(Declared(schema, Items)) {
        ElementVerdict(elems, schema, Declared(schema, Items).value, path, depth);
      }
    case Obj(record) =>
      MissingVerdict(record, RequiredEntries(schema), path);
      PropertyVerdict(record, schema, DeclaredProperties(schema), path, depth);
      ExtraVerdict(record, DeclaredProperties(schema), path);
    case _ =>
  }

  lemma {:induction false} ElementVerdict(elems: seq<Json>, schema: Json, items: Json, path: Path, depth: nat)
    requires items.Obj? && items < schema
    ensures ElementErrors(elems, schema, items, path, depth) == []
            <==> AllOf(ElementVerdicts(elems, schema, items, depth))
    decreases schema, 1, |elems|
  {
    hide NodeErrors, Accepts;
    if elems != [] {
      var n := |elems| - 1;
      ElementVerdict(elems[..n], schema, items, path, depth);
      VerdictIsAccepts(elems[n], items, path + [Index(n)], depth + 1);
      AllOfSnoc(ElementVerdicts(elems[..n], schema, items, depth), Accepts(elems[n], items, depth + 1));
    }
  }

  lemma {:induction false} PropertyVerdict(record: seq<Field>, schema: Json, props: seq<Field>, path: Path, depth: nat)
    requires forall f :: f in props ==> f.value < schema
    ensures PropertyErrors(record, schema, props, path, depth) == []
            <==> AllOf(PropertyVerdicts(record, schema, props, depth))
    decreases schema, 1, |props|
  {
    hide NodeErrors, Accepts;
    if props != [] {
      var n := |props| - 1;
      var p := props[n];
      PropertyVerdict(record, schema, props[..n], path, depth);
      var relevant := HasOwn(record, p.key) && p.value.Obj?;
      if relevant {
        VerdictIsAccepts(Get(record, p.key).value, p.value, path + [Property(p.key)], depth + 1);
      }
      AllOfSnoc(PropertyVerdicts(record, schema, props[..n], depth),
                relevant ==> Accepts(Get(record, p.key).value, p.value, depth + 1));
    }
  }

  lemma {:induction false} MissingVerdict(record: seq<Field>, keys: seq<Json>, path: Path)
    ensures MissingErrors(record, keys, path) == []
            <==> forall i | 0 <= i < |keys| && keys[i].Str? :: HasOwn(record, keys[i].s)
  {
    if keys != [] {
      var n := |keys| - 1;
      MissingVerdict(record, keys[..n], path);
      assert forall i | 0 <= i < n :: keys[..n][i] == keys[i];
    }
  }

  lemma {:induction false} ExtraVerdict(record: seq<Field>, props: seq<Field>, path: Path)
    ensures ExtraErrors(record, props, path) == [] <==> forall f | f in record :: HasOwn(props, f.key)
  {
    if record != [] {
      var n := |record| - 1;
      ExtraVerdict(record[..n], props, path);
      assert forall f :: f in record <==> f in record[..n] || f == record[n];
    }
  }
}
