/**
 * JSON values as the validator sees them: numbers include the non-finite ones a
 * YAML or JavaScript literal can carry, and an object keeps its own keys in
 * insertion order. A string is a sequence of Unicode scalar values; JavaScript
 * measures it in UTF-16 code units, which Utf16Length computes.
 */
module JsonValues {
  import opened Options

  datatype Number = Finite(r: real) | NaN | Infinite(negative: bool)

  datatype Json =
    | Null
    | Bool(b: bool)
    | Num(n: Number)
    | Str(s: string)
    | Arr(elems: seq<Json>)
    | Obj(fields: seq<Field>)

  datatype Field = Field(key: string, value: Json)

  /** The position of `key` among an object's own keys, or the number of keys. */
  function Find(fields: seq<Field>, key: string): (i: nat)
    ensures i <= |fields|
    ensures i < |fields| ==> fields[i].key == key
    ensures forall j :: 0 <= j < i ==> fields[j].key != key
  {
    if fields == [] then 0
    else if fields[0].key == key then 0
    else 1 + Find(fields[1..], key)
  }

  /** JavaScript's `Object.hasOwn(record, key)`. */
  predicate HasOwn(fields: seq<Field>, key: string) {
    Find(fields, key) < |fields|
  }

  /** `record[key]`, or None for `undefined`. */
  function Get(fields: seq<Field>, key: string): (r: Option<Json>)
    ensures r.Some? <==> HasOwn(fields, key)
    ensures r.Some? ==> exists i :: 0 <= i < |fields| && fields[i] == Field(key, r.value)
  {
    var i := Find(fields, key);
    if i < |fields| then Some(fields[i].value) else None
  }

  predicate IsInteger(n: Number) {
    n.Finite? && n.r == n.r.Floor as real
  }

  /** JavaScript's `a < b` on numbers: false as soon as either side is NaN. */
  predicate Less(a: Number, b: Number) {
    match (a, b)
    case (NaN, _) => false
    case (_, NaN) => false
    case (Finite(x), Finite(y)) => x < y
    case (Finite(_), Infinite(negative)) => !negative
    case (Infinite(negative), Finite(_)) => negative
    case (Infinite(m), Infinite(n)) => m && !n
  }

  /** JavaScript's `a === b`. Two object or array values that come from different
      documents are different references, and NaN is unequal to itself. */
  predicate SameValue(a: Json, b: Json) {
    && a == b
    && !a.Arr?
    && !a.Obj?
    && a != Num(NaN)
  }

  /** A character outside the basic multilingual plane takes a surrogate pair. */
  predicate Supplementary(c: char) {
    c as int > 0xFFFF
  }

  /** `s.length`: the number of UTF-16 code units of `s`. */
  function Utf16Length(s: string): (n: nat)
    ensures |s| <= n <= 2 * |s|
  {
    if s == [] then 0 else (if Supplementary(s[0]) then 2 else 1) + Utf16Length(s[1..])
  }

  /** The number of nodes of a value, which bounds the validator's work. */
  function Size(v: Json): (n: nat)
    ensures n >= 1
  {
    match v
    case Arr(elems) => 1 + ElemsSize(elems)
    case Obj(fields) => 1 + FieldsSize(fields)
    case _ => 1
  }

  function ElemsSize(elems: seq<Json>): nat {
    if elems == [] then 0 else Size(elems[0]) + ElemsSize(elems[1..])
  }

  function FieldsSize(fields: seq<Field>): nat {
    if fields == [] then 0 else Size(fields[0].value) + FieldsSize(fields[1..])
  }
}
