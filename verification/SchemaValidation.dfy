/**
 * Tool argument validation (src/server.cpp, schema_validate): the subset of
 * JSON Schema with type, enum, required, properties and items.
 */
module SchemaValidation {
  import opened Wrappers
  import opened Json
  import Decimal

  // ------------------------------------------------------------------- types

  predicate LeafMatches(v: Json, name: string) {
    match name
    case "object" => v.JObj?
    case "array" => v.JArr?
    case "string" => v.JStr?
    case "number" => v.JInt? || v.JReal?
    case "integer" => v.JInt?
    case "boolean" => v.JBool?
    case "null" => v.JNull?
    case _ => true
  }

  /** The kinds of JSON values, by constructor. */
  datatype Kind = Null | Boolean | Integer | Fraction | Text | List | Record

  function KindOf(v: Json): Kind {
    match v
    case JNull => Null
    case JBool(_) => Boolean
    case JInt(_) => Integer
    case JReal(_) => Fraction
    case JStr(_) => Text
    case JArr(_) => List
    case JObj(_) => Record
  }

  /** Section 6.1.1 of JSON Schema Validation: which kinds each type name admits. */
  const TYPE_TABLE: map<string, set<Kind>> :=
    map["null" := {Null}, "boolean" := {Boolean}, "integer" := {Integer}, "number" := {Integer, Fraction},
        "string" := {Text}, "array" := {List}, "object" := {Record}]

  /** The type names mean what the table says, and any other name admits everything. */
  lemma TypeNames(v: Json, name: string)
    ensures LeafMatches(v, name) <==> (name in TYPE_TABLE ==> KindOf(v) in TYPE_TABLE[name])
  {
  }

  const BASIC_TYPES := {"object", "array", "string", "number", "boolean", "null"}

  /** The basic types partition the values: each value has exactly one of them, the
      one of its constructor; "integer" is the part of "number" without fractions. */
  lemma OneBasicType(v: Json) returns (name: string)
    ensures name == match v
                    case JNull => "null"
                    case JBool(_) => "boolean"
                    case JInt(_) => "number"
                    case JReal(_) => "number"
                    case JStr(_) => "string"
                    case JArr(_) => "array"
                    case JObj(_) => "object"
    ensures name in BASIC_TYPES && LeafMatches(v, name)
    ensures forall other :: other in BASIC_TYPES && LeafMatches(v, other) ==> other == name
    ensures LeafMatches(v, "integer") <==> v.JInt?
  {
    name := match v
      case JNull => "null"
      case JBool(_) => "boolean"
      case JInt(_) => "number"
      case JReal(_) => "number"
      case JStr(_) => "string"
      case JArr(_) => "array"
      case JObj(_) => "object";
  }

  /** A `type` keyword: a name, an array of alternatives, or something ignored. */
  predicate TypeMatches(v: Json, t: Json) {
    match t
    case JStr(name) => LeafMatches(v, name)
    case JArr(alts) => exists i :: 0 <= i < |alts| && TypeMatches(v, alts[i])
    case _ => true
  }

  /** The alternatives of a `type` keyword with its nested arrays removed. */
  function Leaves(t: Json): set<Json> {
    match t
    case JArr(alts) => set i, l | 0 <= i < |alts| && l in Leaves(alts[i]) :: l
    case _ => {t}
  }

  /** Nesting does not matter: a value has a type iff it has one of the leaves. */
  lemma {:induction false} TypeIsFlat(v: Json, t: Json)
    ensures TypeMatches(v, t) <==> exists l :: l in Leaves(t) && !l.JArr? && TypeMatches(v, l)
    decreases t
  {
    match t
    case JArr(alts) =>
      forall i | 0 <= i < |alts|
        ensures TypeMatches(v, alts[i]) <==> exists l :: l in Leaves(alts[i]) && !l.JArr? && TypeMatches(v, l)
        ensures Leaves(alts[i]) <= Leaves(t)
      {
        TypeIsFlat(v, alts[i]);
      }
      assert forall l :: l in Leaves(t) ==> exists i :: 0 <= i < |alts| && l in Leaves(alts[i]);
    case _ =>
      assert t in Leaves(t);
  }

  // ------------------------------------------------- one location, on its own

  predicate TypeOk(v: Json, s: Json) {
    Has(s, "type") ==> TypeMatches(v, s.fields["type"])
  }

  predicate EnumOk(v: Json, s: Json) {
    Has(s, "enum") && s.fields["enum"].JArr? ==>
      exists e :: e in s.fields["enum"].items && Same(v, e)
  }

  predicate RequiredOk(v: Json, s: Json) {
    v.JObj? && Has(s, "required") && s.fields["required"].JArr? ==>
      forall r :: r in s.fields["required"].items && r.JStr? ==> r.s in v.fields
  }

  predicate LocalOk(v: Json, s: Json) {
    TypeOk(v, s) && EnumOk(v, s) && RequiredOk(v, s)
  }

  // ------------------------------------------------------------ whole values

  function Properties(s: Json): map<string, Json> {
    if Has(s, "properties") && s.fields["properties"].JObj? then s.fields["properties"].fields else map[]
  }

  function Items(s: Json): Option<Json> {
    if Has(s, "items") && s.fields["items"].JObj? then Some(s.fields["items"]) else None
  }

  /** The validity relation, by recursion on the value. */
  predicate Conforms(v: Json, s: Json)
    decreases v
  {
    LocalOk(v, s)
    && (v.JObj? ==> forall k :: k in v.fields && k in Properties(s) ==> Conforms(v.fields[k], Properties(s)[k]))
    && (v.JArr? && Items(s).Some? ==> forall i :: 0 <= i < |v.items| ==> Conforms(v.items[i], Items(s).value))
  }

  // ---------------------------------------------- locations and error messages

  datatype Move = Key(k: string) | Index(i: nat)

  /** The subvalue and subschema one move below, when the schema speaks of it. */
  function Child(v: Json, s: Json, m: Move): Option<(Json, Json)> {
    match m
    case Key(k) =>
      if v.JObj? && k in v.fields && k in Properties(s) then Some((v.fields[k], Properties(s)[k])) else None
    case Index(i) => if v.JArr? && i < |v.items| && Items(s).Some? then Some((v.items[i], Items(s).value)) else None
  }

  function At(v: Json, s: Json, loc: seq<Move>): Option<(Json, Json)> {
    if loc == [] then Some((v, s))
    else
      match Child(v, s, loc[0])
      case None => None
      case Some(c) => At(c.0, c.1, loc[1..])
  }

  function Extend(path: string, m: Move): string {
    match m
    case Key(k) => if path == "" then k else path + "." + k
    case Index(i) => path + "[" + Decimal.ToText(i) + "]"
  }

  function PathText(path: string, loc: seq<Move>): string
    decreases |loc|
  {
    if loc == [] then path else PathText(Extend(path, loc[0]), loc[1..])
  }

  /** The message is the one of the first check that fails at (v, s). */
  ghost predicate Reports(err: string, v: Json, s: Json, path: string) {
    if !TypeOk(v, s) then
      err == if path == "" then "value does not match schema type" else "'" + path + "' does not match schema type"
    else if !EnumOk(v, s) then
      err == (if path == "" then "value" else "'" + path + "'") + " is not one of the allowed values"
    else
      v.JObj? && Has(s, "required") && s.fields["required"].JArr?
      && exists i: nat :: FirstMissing(i, v, s.fields["required"].items)
                     && err == "missing required property '" + s.fields["required"].items[i].s + "'"
  }

  predicate FirstMissing(i: nat, v: Json, reqs: seq<Json>)
    requires v.JObj?
  {
    i < |reqs| && reqs[i].JStr? && reqs[i].s !in v.fields
    && forall j :: 0 <= j < i && reqs[j].JStr? ==> reqs[j].s in v.fields
  }

  /** The order of std::map<std::string, ...>: lexicographic, by character. */
  predicate Before(a: string, b: string) {
    b != "" && (a == "" || a[0] < b[0] || (a[0] == b[0] && Before(a[1..], b[1..])))
  }

  /** Keys and indices that the loops visit earlier. */
  predicate Earlier(m: Move, n: Move) {
    match m
    case Key(k) => n.Key? && Before(k, n.k)
    case Index(i) => n.Index? && i < n.i
  }

  /** No child that is visited before this one fails. */
  ghost predicate FirstToFail(v: Json, s: Json, m: Move) {
    forall n :: Earlier(n, m) && Child(v, s, n).Some? ==>
      Conforms(Child(v, s, n).value.0, Child(v, s, n).value.1)
  }

  /** An error blames the first failing location in the order of the loops: its
      ancestors pass their own checks and everything visited earlier conforms. */
  ghost predicate Blames(err: string, v: Json, s: Json, path: string, loc: seq<Move>)
    decreases |loc|
  {
    if loc == [] then !LocalOk(v, s) && Reports(err, v, s, path)
    else
      LocalOk(v, s) && FirstToFail(v, s, loc[0])
      && match Child(v, s, loc[0])
         case None => false
         case Some(c) => Blames(err, c.0, c.1, Extend(path, loc[0]), loc[1..])
  }

  /** Validity says exactly that no location reachable through the schema fails. */
  lemma {:induction false} ConformsEverywhere(v: Json, s: Json)
    ensures Conforms(v, s)
            <==> forall loc :: At(v, s, loc).Some? ==> LocalOk(At(v, s, loc).value.0, At(v, s, loc).value.1)
  {
    if Conforms(v, s) {
      forall loc | At(v, s, loc).Some?
        ensures LocalOk(At(v, s, loc).value.0, At(v, s, loc).value.1)
      {
        ConformsAt(v, s, loc);
      }
    } else {
      var loc := FailingLocation(v, s);
      assert At(v, s, loc).Some?;
    }
  }

  lemma {:induction false} ConformsAt(v: Json, s: Json, loc: seq<Move>)
    requires Conforms(v, s) && At(v, s, loc).Some?
    ensures Conforms(At(v, s, loc).value.0, At(v, s, loc).value.1)
    decreases |loc|
  {
    if loc != [] {
      var c := Child(v, s, loc[0]).value;
      ConformsAt(c.0, c.1, loc[1..]);
    }
  }

  lemma {:induction false} FailingLocation(v: Json, s: Json) returns (loc: seq<Move>)
    requires !Conforms(v, s)
    ensures At(v, s, loc).Some? && !LocalOk(At(v, s, loc).value.0, At(v, s, loc).value.1)
    decreases v
  {
    if !LocalOk(v, s) {
      loc := [];
    } else if v.JObj? {
      var k :| k in v.fields && k in Properties(s) && !Conforms(v.fields[k], Properties(s)[k]);
      var rest := FailingLocation(v.fields[k], Properties(s)[k]);
      loc := [Key(k)] + rest;
      assert loc[1..] == rest;
    } else {
      var i :| 0 <= i < |v.items| && !Conforms(v.items[i], Items(s).value);
      var rest := FailingLocation(v.items[i], Items(s).value);
      loc := [Index(i)] + rest;
      assert loc[1..] == rest;
    }
  }

  // -------------------------------------------------------- keyword by keyword

  /** `properties`, section 10.3.2.1 of JSON Schema Core: the values of the named
      members must conform, other members are free, other values pass. */
  lemma PropertiesExact(v: Json, ps: map<string, Json>)
    ensures Conforms(v, JObj(map["properties" := JObj(ps)]))
            <==> (v.JObj? ==> forall k :: k in v.fields && k in ps ==> Conforms(v.fields[k], ps[k]))
  {
    var s := JObj(map["properties" := JObj(ps)]);
    assert s.fields["properties"] == JObj(ps);
    assert Properties(s) == ps;
  }

  /** `items`, section 10.3.1.2: every element must conform to a schema that is an
      object; anything else under the key is ignored. */
  lemma ItemsExact(v: Json, element: Json)
    ensures Conforms(v, JObj(map["items" := element]))
            <==> (v.JArr? && element.JObj? ==> forall i :: 0 <= i < |v.items| ==> Conforms(v.items[i], element))
  {
    var s := JObj(map["items" := element]);
    assert s.fields["items"] == element && Properties(s) == map[];
  }

  /** `enum`, section 6.1.2: equal, as JSON values, to one of the alternatives. */
  lemma EnumExact(v: Json, alternatives: seq<Json>)
    ensures Conforms(v, JObj(map["enum" := JArr(alternatives)]))
            <==> exists e :: e in alternatives && Norm(v) == Norm(e)
  {
    var s := JObj(map["enum" := JArr(alternatives)]);
    assert s.fields["enum"] == JArr(alternatives) && Properties(s) == map[];
    forall e | e in alternatives ensures Same(v, e) <==> Norm(v) == Norm(e) {
      SameIsNormEqual(v, e);
    }
  }

  /** `required`, section 6.5.3: an object has every member named by a string. */
  lemma RequiredExact(v: Json, names: seq<Json>)
    ensures Conforms(v, JObj(map["required" := JArr(names)]))
            <==> (v.JObj? ==> forall r :: r in names && r.JStr? ==> r.s in v.fields)
  {
    var s := JObj(map["required" := JArr(names)]);
    assert s.fields["required"] == JArr(names) && Properties(s) == map[];
  }

  /** Something that is not an object constrains nothing. */
  lemma NoSchema(v: Json, s: Json)
    requires !s.JObj?
    ensures Conforms(v, s)
  {
  }

  /** How a location reads: keys after dots, indices in brackets. */
  function Shown(loc: seq<Move>): string {
    if loc == [] then ""
    else
      var before, m := Shown(loc[..|loc| - 1]), loc[|loc| - 1];
      match m
      case Key(k) => if before == "" then k else before + "." + k
      case Index(i) => before + "[" + Decimal.ToText(i) + "]"
  }

  lemma {:induction false} PathAppend(path: string, loc: seq<Move>, m: Move)
    ensures PathText(path, loc + [m]) == Extend(PathText(path, loc), m)
    decreases |loc|
  {
    if loc == [] {
      assert loc + [m] == [m] && [m][1..] == [];
    } else {
      assert (loc + [m])[0] == loc[0] && (loc + [m])[1..] == loc[1..] + [m];
      PathAppend(Extend(path, loc[0]), loc[1..], m);
    }
  }

  /** The path in a message is the location as it reads. */
  lemma {:induction false} PathIsShown(loc: seq<Move>)
    ensures PathText("", loc) == Shown(loc)
  {
    if loc != [] {
      var init := loc[..|loc| - 1];
      assert loc == init + [loc[|loc| - 1]];
      PathAppend("", init, loc[|loc| - 1]);
      PathIsShown(init);
    }
  }

  /** A blamed location is a failing one, and the message names it. */
  lemma {:induction false} BlameIsReal(err: string, v: Json, s: Json, path: string, loc: seq<Move>)
    requires Blames(err, v, s, path, loc)
    ensures err != "" && At(v, s, loc).Some?
    ensures !LocalOk(At(v, s, loc).value.0, At(v, s, loc).value.1)
    ensures Reports(err, At(v, s, loc).value.0, At(v, s, loc).value.1, PathText(path, loc))
    decreases |loc|
  {
    if loc != [] {
      var c := Child(v, s, loc[0]).value;
      BlameIsReal(err, c.0, c.1, Extend(path, loc[0]), loc[1..]);
    }
  }

  // --------------------------------------------------------------- the method

  /** How deeply type arrays nest: the part of the measure that the schema gives. */
  function Nesting(t: Json): nat {
    if t.JArr? then 1 + MaxNesting(t.items) else 0
  }

  function MaxNesting(ts: seq<Json>): (m: nat)
    ensures forall i :: 0 <= i < |ts| ==> Nesting(ts[i]) <= m
  {
    if ts == [] then 0
    else
      var rest := MaxNesting(ts[1..]);
      assert forall i :: 1 <= i < |ts| ==> ts[i] == ts[1..][i - 1];
      if Nesting(ts[0]) > rest then Nesting(ts[0]) else rest
  }

  function TypeNesting(s: Json): nat {
    if Has(s, "type") then Nesting(s.fields["type"]) else 0
  }

  function TypeSchema(alt: Json): Json {
    JObj(map["type" := alt])
  }

  lemma TypeSchemaIsType(v: Json, alt: Json)
    ensures Conforms(v, TypeSchema(alt)) <==> TypeMatches(v, alt)
  {
    assert Properties(TypeSchema(alt)) == map[];
  }

  /** A schema that only names a type accepts exactly the values of the table. */
  lemma NamedTypeExact(v: Json, name: string)
    ensures Conforms(v, JObj(map["type" := JStr(name)]))
            <==> (name in TYPE_TABLE ==> KindOf(v) in TYPE_TABLE[name])
  {
    TypeSchemaIsType(v, JStr(name));
    TypeNames(v, name);
  }

  method CheckType(v: Json, s: Json, path: string) returns (ok: bool)
    requires Has(s, "type")
    ensures ok <==> TypeOk(v, s)
    decreases v, TypeNesting(s), 0
  {
    var t := s.fields["type"];
    ok := true;
    if t.JStr? {
      ok := LeafMatches(v, t.s);
    } else if t.JArr? {
      ok := false;
      for i := 0 to |t.items|
        invariant !ok
        invariant forall j :: 0 <= j < i ==> !TypeMatches(v, t.items[j])
      {
        TypeSchemaIsType(v, t.items[i]);
        var sub, _ := SchemaValidate(v, TypeSchema(t.items[i]), path);
        if sub == "" {
          return true;
        }
      }
    }
  }

  method SchemaValidate(v: Json, s: Json, path: string) returns (err: string, ghost loc: seq<Move>)
    ensures err == "" <==> Conforms(v, s)
    ensures err != "" ==> Blames(err, v, s, path, loc)
    decreases v, TypeNesting(s), 2
  {
    if !s.JObj? {
      return "", [];
    }
    loc := [];
    err := CheckLocal(v, s, path);
    if err != "" {
      return;
    }
    if v.JObj? {
      err, loc := ValidateProperties(v, s, path);
    }
    if v.JArr? && Items(s).Some? {
      err, loc := ValidateItems(v, s, path);
    }
  }

  method CheckLocal(v: Json, s: Json, path: string) returns (err: string)
    requires s.JObj?
    ensures err == "" <==> LocalOk(v, s)
    ensures err != "" ==> Reports(err, v, s, path)
    decreases v, TypeNesting(s), 1
  {
    if "type" in s.fields {
      var ok := CheckType(v, s, path);
      if !ok {
        return if path == "" then "value does not match schema type" else "'" + path + "' does not match schema type";
      }
    }
    if "enum" in s.fields && s.fields["enum"].JArr? {
      var found := FindInEnum(v, s.fields["enum"].items);
      if !found {
        return (if path == "" then "value" else "'" + path + "'") + " is not one of the allowed values";
      }
    }
    if v.JObj? && "required" in s.fields && s.fields["required"].JArr? {
      var missing := FindMissing(v, s.fields["required"].items);
      if missing < |s.fields["required"].items| {
        assert FirstMissing(missing, v, s.fields["required"].items);
        return "missing required property '" + s.fields["required"].items[missing].s + "'";
      }
    }
    return "";
  }

  method FindInEnum(v: Json, es: seq<Json>) returns (found: bool)
    ensures found <==> exists e :: e in es && Same(v, e)
  {
    for i := 0 to |es|
      invariant forall j :: 0 <= j < i ==> !Same(v, es[j])
    {
      if Same(v, es[i]) {
        assert es[i] in es;
        return true;
      }
    }
    return false;
  }

  method FindMissing(v: Json, reqs: seq<Json>) returns (i: nat)
    requires v.JObj?
    ensures i <= |reqs|
    ensures i < |reqs| ==> FirstMissing(i, v, reqs)
    ensures i == |reqs| ==> forall r :: r in reqs && r.JStr? ==> r.s in v.fields
  {
    i := 0;
    while i < |reqs|
      invariant i <= |reqs|
      invariant forall j :: 0 <= j < i && reqs[j].JStr? ==> reqs[j].s in v.fields
    {
      if reqs[i].JStr? && reqs[i].s !in v.fields {
        return;
      }
      i := i + 1;
    }
  }

  lemma {:induction false} BeforeTotal(a: string, b: string)
    ensures Before(a, b) || Before(b, a) || a == b
    ensures !(Before(a, b) && Before(b, a)) && !Before(a, a)
  {
    if a != "" && b != "" {
      BeforeTotal(a[1..], b[1..]);
      assert a == [a[0]] + a[1..] && b == [b[0]] + b[1..];
    }
    if a != "" {
      BeforeTotal(a[1..], a[1..]);
    }
  }

  lemma {:induction false} BeforeTransitive(a: string, b: string, c: string)
    requires Before(a, b) && Before(b, c)
    ensures Before(a, c)
  {
    if a != "" && a[0] == b[0] == c[0] {
      BeforeTransitive(a[1..], b[1..], c[1..]);
    }
  }

  /** The order is decided at the first place where the strings differ, where the
      shorter of two that agree comes first. */
  lemma {:induction false} BeforeExact(a: string, b: string)
    ensures Before(a, b) <==> exists i :: DecidesAt(a, b, i)
  {
    forall i | i > 0 && DecidesAt(a, b, i) ensures a[0] == b[0] {
      assert a[..i][0] == b[..i][0];
    }
    if a != "" && b != "" && a[0] == b[0] {
      BeforeExact(a[1..], b[1..]);
      if i :| DecidesAt(a[1..], b[1..], i) {
        assert a[..i + 1] == [a[0]] + a[1..][..i] && b[..i + 1] == [b[0]] + b[1..][..i];
        assert DecidesAt(a, b, i + 1);
      }
      if i :| DecidesAt(a, b, i) {
        assert a[1..][..i - 1] == a[..i][1..] && b[1..][..i - 1] == b[..i][1..];
        assert DecidesAt(a[1..], b[1..], i - 1);
      }
    } else if Before(a, b) {
      assert DecidesAt(a, b, 0);
    }
  }

  predicate DecidesAt(a: string, b: string, i: int) {
    0 <= i <= |a| && i < |b| && a[..i] == b[..i] && (i == |a| || a[i] < b[i])
  }

  predicate IsFirst(k: string, keys: set<string>) {
    k in keys && forall j :: j in keys ==> !Before(j, k)
  }

  lemma {:induction false} FirstKey(keys: set<string>) returns (k: string)
    requires keys != {}
    ensures IsFirst(k, keys)
  {
    k :| k in keys;
    var rest := keys - {k};
    BeforeTotal(k, k);
    if rest == {} {
      assert keys == {k};
    } else {
      var j := FirstKey(rest);
      if Before(j, k) {
        forall i | i in keys ensures !Before(i, j) {
          if i == k { BeforeTotal(j, k); } else { assert i in rest; }
        }
        k := j;
      } else {
        forall i | i in keys ensures !Before(i, k) {
          if i != k {
            assert i in rest && !Before(i, j);
            BeforeTotal(i, j);
            if Before(i, k) {
              if Before(j, i) { BeforeTransitive(j, i, k); }
            }
          }
        }
      }
    }
  }

  method PickFirst(keys: set<string>) returns (k: string)
    requires keys != {}
    ensures IsFirst(k, keys)
  {
    ghost var first := FirstKey(keys);
    k :| k in keys && IsFirst(k, keys);
  }

  /** What one location is blamed for determines the location and the message. */
  lemma {:induction false} BlameUnique(
      err: string, loc: seq<Move>, err': string, loc': seq<Move>, v: Json, s: Json, path: string)
    requires Blames(err, v, s, path, loc) && Blames(err', v, s, path, loc')
    ensures err == err' && loc == loc'
    decreases |loc|
  {
    if loc == [] || loc' == [] {
      ReportUnique(err, err', v, s, path);
    } else {
      BlamedFails(err, v, s, path, loc);
      BlamedFails(err', v, s, path, loc');
      var m, m' := loc[0], loc'[0];
      if m.Key? && m'.Key? { BeforeTotal(m.k, m'.k); }
      assert m == m';
      var c := Child(v, s, m).value;
      BlameUnique(err, loc[1..], err', loc'[1..], c.0, c.1, Extend(path, m));
      assert loc == [m] + loc[1..] && loc' == [m'] + loc'[1..];
    }
  }

  lemma ReportUnique(err: string, err': string, v: Json, s: Json, path: string)
    requires Reports(err, v, s, path) && Reports(err', v, s, path)
    ensures err == err'
  {
    if TypeOk(v, s) && EnumOk(v, s) {
      var reqs := s.fields["required"].items;
      var i: nat :| FirstMissing(i, v, reqs) && err == "missing required property '" + reqs[i].s + "'";
      var j: nat :| FirstMissing(j, v, reqs) && err' == "missing required property '" + reqs[j].s + "'";
      assert i == j;
    }
  }

  lemma BlamedFails(err: string, v: Json, s: Json, path: string, loc: seq<Move>)
    requires loc != [] && Blames(err, v, s, path, loc)
    ensures Child(v, s, loc[0]).Some? && !Conforms(Child(v, s, loc[0]).value.0, Child(v, s, loc[0]).value.1)
  {
    var c := Child(v, s, loc[0]).value;
    BlameIsReal(err, c.0, c.1, Extend(path, loc[0]), loc[1..]);
    ConformsEverywhere(c.0, c.1);
  }

  lemma BlameChild(err: string, v: Json, s: Json, path: string, m: Move, rest: seq<Move>)
    requires LocalOk(v, s) && FirstToFail(v, s, m) && Child(v, s, m).Some? && err != ""
    requires Blames(err, Child(v, s, m).value.0, Child(v, s, m).value.1, Extend(path, m), rest)
    ensures Blames(err, v, s, path, [m] + rest) && !Conforms(v, s)
  {
    assert ([m] + rest)[1..] == rest;
    BlamedFails(err, v, s, path, [m] + rest);
  }

  /** The keys in order, as iterating over the object does. */
  method ValidateProperties(v: Json, s: Json, path: string) returns (err: string, ghost loc: seq<Move>)
    requires v.JObj? && LocalOk(v, s)
    ensures err == "" <==> Conforms(v, s)
    ensures err != "" ==> Blames(err, v, s, path, loc)
    decreases v, TypeNesting(s), 0
  {
    var todo := v.fields.Keys;
    loc := [];
    while todo != {}
      invariant todo <= v.fields.Keys
      invariant forall k :: k in v.fields && k !in todo && k in Properties(s) ==>
        Conforms(v.fields[k], Properties(s)[k])
      decreases |todo|
    {
      var k := PickFirst(todo);
      if k in Properties(s) {
        var sub, rest := SchemaValidate(v.fields[k], Properties(s)[k], Extend(path, Key(k)));
        if sub != "" {
          BlameChild(sub, v, s, path, Key(k), rest);
          return sub, [Key(k)] + rest;
        }
      }
      todo := todo - {k};
    }
    return "", [];
  }

  method ValidateItems(v: Json, s: Json, path: string) returns (err: string, ghost loc: seq<Move>)
    requires v.JArr? && LocalOk(v, s) && Items(s).Some?
    ensures err == "" <==> Conforms(v, s)
    ensures err != "" ==> Blames(err, v, s, path, loc)
    decreases v, TypeNesting(s), 0
  {
    loc := [];
    for i := 0 to |v.items|
      invariant forall j :: 0 <= j < i ==> Conforms(v.items[j], Items(s).value)
    {
      var sub, rest := SchemaValidate(v.items[i], Items(s).value, Extend(path, Index(i)));
      if sub != "" {
        BlameChild(sub, v, s, path, Index(i), rest);
        return sub, [Index(i)] + rest;
      }
    }
    return "", [];
  }
}
