/** Sizes of the parts of a schema: what bounds the work of walking it. */
module JsonSchemaSizes {
  import opened Options
  import opened JsonValues
  import opened JsonSchema

  lemma {:induction false} ElemsSizeSnoc(elems: seq<Json>, last: Json)
    ensures ElemsSize(elems + [last]) == ElemsSize(elems) + Size(last)
  {
    if elems == [] {
      assert ElemsSize([last]) == Size(last) + ElemsSize([]);
    } else {
      ElemsSizeSnoc(elems[1..], last);
      assert (elems + [last])[1..] == elems[1..] + [last];
    }
  }

  lemma {:induction false} FieldsSizeSnoc(fields: seq<Field>, last: Field)
    ensures FieldsSize(fields + [last]) == FieldsSize(fields) + Size(last.value)
  {
    if fields == [] {
      assert FieldsSize([last]) == Size(last.value) + FieldsSize([]);
    } else {
      FieldsSizeSnoc(fields[1..], last);
      assert (fields + [last])[1..] == fields[1..] + [last];
    }
  }

  lemma {:induction false} RecordsSize(elems: seq<Json>)
    ensures ElemsSize(RecordsOf(elems)) <= ElemsSize(elems)
  {
    if elems != [] {
      RecordsSize(elems[1..]);
      var rest := RecordsOf(elems[1..]);
      assert elems[0].Obj? ==> RecordsOf(elems)[0] == elems[0] && RecordsOf(elems)[1..] == rest;
      assert !elems[0].Obj? ==> RecordsOf(elems) == rest;
    }
  }

  lemma {:induction false} MemberSize(fields: seq<Field>, key: string)
    requires HasOwn(fields, key)
    ensures Size(Get(fields, key).value) <= FieldsSize(fields)
  {
    if fields[0].key != key {
      MemberSize(fields[1..], key);
    }
  }

  /** The size of what one keyword declares. */
  function Weight(fields: seq<Field>, k: Keyword): nat {
    match Get(fields, Name(k)) case Some(value) => Size(value) case None => 0
  }

  /** Distinct keywords hold disjoint parts of a schema. */
  lemma {:induction false} WeightsAddUp(fields: seq<Field>)
    ensures Weight(fields, AllOf) + Weight(fields, AnyOf) + Weight(fields, OneOf) + Weight(fields, Not)
            + Weight(fields, Items) + Weight(fields, Properties) <= FieldsSize(fields)
  {
    hide Name, Weight, Size;
    if fields == [] {
      assert forall k :: Weight(fields, k) == 0 by { NoWeight(); }
    } else {
      WeightsAddUp(fields[1..]);
      forall k: Keyword { WeightOfFirst(fields, k); }
      forall a: Keyword, b: Keyword | Name(a) == fields[0].key && Name(b) == fields[0].key ensures a == b {
        NameIsInjective(a, b);
      }
    }
  }

  lemma NoWeight()
    ensures forall k :: Weight([], k) == 0
  {
    hide Name;
  }

  lemma WeightOfFirst(fields: seq<Field>, k: Keyword)
    requires fields != []
    ensures Weight(fields, k) == if Name(k) == fields[0].key then Size(fields[0].value) else Weight(fields[1..], k)
  {
    hide Name, Size;
  }

  lemma ChildWeight(schema: Json, k: Keyword)
    requires schema.Obj? && Declared(schema, k).Some?
    ensures Weight(schema.fields, k) == Size(Declared(schema, k).value)
  {
  }

  lemma WholeSize(elems: seq<Json>, fields: seq<Field>)
    ensures ElemsSize(elems) <= Size(Arr(elems))
    ensures FieldsSize(fields) <= Size(Obj(fields))
  {
  }

  lemma BranchesWeight(schema: Json, k: Keyword)
    requires schema.Obj?
    ensures ElemsSize(Branches(schema, k)) <= Weight(schema.fields, k)
  {
    match Declared(schema, k)
    case Some(Arr(elems)) => RecordsSize(elems);
    case _ =>
  }

  lemma PropertiesWeight(schema: Json)
    requires schema.Obj?
    ensures FieldsSize(DeclaredProperties(schema)) <= Weight(schema.fields, Properties)
  {
  }
}
