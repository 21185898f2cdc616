/**
 * JSON values as the code sees them after parsing: null, booleans, integers,
 * fractional numbers, strings, arrays and objects with distinct keys.
 */
module Json {
  datatype Json =
    | JNull
    | JBool(b: bool)
    | JInt(n: int)
    | JReal(r: real)
    | JStr(s: string)
    | JArr(items: seq<Json>)
    | JObj(fields: map<string, Json>)

  predicate Has(j: Json, key: string) {
    j.JObj? && key in j.fields
  }

  /** The library's `==`: structural, except that numbers compare by value. */
  predicate Same(a: Json, b: Json) {
    match a
    case JInt(n) => (b.JInt? && b.n == n) || (b.JReal? && b.r == n as real)
    case JReal(r) => (b.JReal? && b.r == r) || (b.JInt? && b.n as real == r)
    case JArr(xs) => b.JArr? && |b.items| == |xs| && forall i :: 0 <= i < |xs| ==> Same(xs[i], b.items[i])
    case JObj(f) => b.JObj? && b.fields.Keys == f.Keys && forall k :: k in f ==> Same(f[k], b.fields[k])
    case _ => a == b
  }

  /** The canonical form: every number written as a real. */
  function Norm(j: Json): Json {
    match j
    case JInt(n) => JReal(n as real)
    case JArr(xs) => JArr(seq(|xs|, i requires 0 <= i < |xs| => Norm(xs[i])))
    case JObj(f) => JObj(map k | k in f :: Norm(f[k]))
    case _ => j
  }

  /** `==` is exactly equality of canonical forms, hence an equivalence. */
  lemma {:induction false} SameIsNormEqual(a: Json, b: Json)
    ensures Same(a, b) <==> Norm(a) == Norm(b)
    decreases a
  {
    match a
    case JArr(xs) =>
      if b.JArr? && |b.items| == |xs| {
        forall i | 0 <= i < |xs|
          ensures Same(xs[i], b.items[i]) <==> Norm(a).items[i] == Norm(b).items[i]
        {
          SameIsNormEqual(xs[i], b.items[i]);
        }
        assert Norm(a) == Norm(b) <==> forall i :: 0 <= i < |xs| ==> Norm(a).items[i] == Norm(b).items[i];
      } else if b.JArr? {
        assert |Norm(a).items| != |Norm(b).items|;
      }
    case JObj(f) =>
      if b.JObj? && b.fields.Keys == f.Keys {
        forall k | k in f
          ensures Same(f[k], b.fields[k]) <==> Norm(a).fields[k] == Norm(b).fields[k]
        {
          SameIsNormEqual(f[k], b.fields[k]);
        }
        assert Norm(a) == Norm(b) <==> forall k :: k in f ==> Norm(a).fields[k] == Norm(b).fields[k];
      } else if b.JObj? {
        assert Norm(a).fields.Keys == f.Keys && Norm(b).fields.Keys == b.fields.Keys;
      }
    case _ =>
  }
}
