/** `widen_scalar_strings` of `sonda-core/src/schema.rs`, and what it does to the meaning of a
    schema. The meaning is that of JSON Schema draft 2020-12: `type`, `enum` and `const` of
    section 6.1 of its Validation document, and the applicators of section 10 of its Core
    document, with `$ref` into the document's own `$defs`. */
module SchemaWidening {

  datatype Json = Null | Bool(b: bool) | Num(n: real) | Str(s: string) | Arr(items: seq<Json>)
      | Obj(fields: map<string, Json>)

  const NO_WIDENING := "x-sonda-no-widening"

  // ---- Widening ----

  const SCALARS: seq<Json> := [Str("string"), Str("number"), Str("boolean")]

  predicate Closed(m: map<string, Json>)
  {
    "enum" in m || "const" in m
  }

  function Added(variants: seq<Json>, extra: string): seq<Json>
  {
    if Str(extra) in variants then [] else [Str(extra)]
  }

  function Widen(j: Json): Json
    decreases j, 0
  {
    match j
    case Obj(m) =>
      if NO_WIDENING in m then Obj(m - {NO_WIDENING})
      else Obj(map k | k in m :: if k == "type" && !Closed(m) then WidenType(m[k]) else Widen(m[k]))
    case Arr(xs) => Arr(WidenAll(xs))
    case _ => j
  }

  function WidenAll(xs: seq<Json>): (r: seq<Json>)
    ensures |r| == |xs|
    ensures forall i :: 0 <= i < |xs| ==> r[i] == Widen(xs[i])
    decreases xs, 0
  {
    if xs == [] then [] else WidenAll(xs[..|xs| - 1]) + [Widen(xs[|xs| - 1])]
  }

  /** An open `type` keyword, widened if it admits strings. */
  function WidenType(t: Json): Json
    decreases t, 1
  {
    match t
    case Str(s) => if s == "string" then Arr(SCALARS) else t
    case Arr(xs) =>
      if Str("string") in xs then Arr(WidenAll(xs) + Added(xs, "number") + Added(xs, "boolean"))
      else Arr(WidenAll(xs))
    case Obj(m) => Widen(t)
    case _ => t
  }

  /** The `type` keyword as the source first rewrites it, before it descends into the children. */
  function Retyped(t: Json): Json
  {
    match t
    case Str(s) => if s == "string" then Arr(SCALARS) else t
    case Arr(xs) => if Str("string") in xs then Arr(xs + Added(xs, "number") + Added(xs, "boolean")) else t
    case _ => t
  }

  /** Descending first and rewriting after gives the same keyword: the added names are strings,
      which the descent leaves alone. */
  lemma {:induction false} RewriteThenDescend(t: Json)
    ensures Widen(Retyped(t)) == WidenType(t)
  {
    match t
    case Str(_) => ScalarsStay(SCALARS);
    case Arr(xs) => DescendTwice(xs, Added(xs, "number"), Added(xs, "boolean"));
    case _ =>
  }

  lemma {:induction false} DescendTwice(xs: seq<Json>, ys: seq<Json>, zs: seq<Json>)
    requires forall i :: 0 <= i < |ys| ==> ys[i].Str?
    requires forall i :: 0 <= i < |zs| ==> zs[i].Str?
    ensures Widen(Arr(xs + ys + zs)) == Arr(WidenAll(xs) + ys + zs)
  {
    DescendAppended(xs, ys);
    DescendAppended(xs + ys, zs);
  }

  lemma ScalarsStay(xs: seq<Json>)
    requires xs == SCALARS
    ensures Widen(Arr(xs)) == Arr(xs)
  {
    StringsStay(xs);
  }

  lemma StringsStay(xs: seq<Json>)
    requires forall i :: 0 <= i < |xs| ==> xs[i].Str?
    ensures WidenAll(xs) == xs
  {
  }

  lemma {:induction false} DescendAppended(xs: seq<Json>, ys: seq<Json>)
    requires forall i :: 0 <= i < |ys| ==> ys[i].Str?
    ensures WidenAll(xs + ys) == WidenAll(xs) + ys
  {
    var l, r := WidenAll(xs + ys), WidenAll(xs) + ys;
    forall i | 0 <= i < |l| ensures l[i] == r[i] {
      assert l[i] == Widen((xs + ys)[i]);
    }
  }

  // ---- What becomes of an object, key by key ----

  /** `t` is what the `type` of `m` becomes. Without `enum` and `const`, "string" becomes the three
      scalars; a list with "string" gains "number" and "boolean" at its end, in this order, each
      unless it is listed; and anything else is only descended into. */
  predicate TypeWidened(m: map<string, Json>, t: Json)
    requires "type" in m
  {
    var was := m["type"];
    if "enum" in m || "const" in m then t == Widen(was)
    else if was == Str("string") then t == Arr([Str("string"), Str("number"), Str("boolean")])
    else if was.Arr? && Str("string") in was.items then
      && t.Arr? && |was.items| <= |t.items|
      && (forall i :: 0 <= i < |was.items| ==> t.items[i] == Widen(was.items[i]))
      && t.items[|was.items|..] == (if Str("number") in was.items then [] else [Str("number")])
                                   + if Str("boolean") in was.items then [] else [Str("boolean")]
    else t == Widen(was)
  }

  /** `j` is what the object `m` becomes: without the marker and otherwise the same if it is marked,
      else with the same keys, its `type` widened and every other value descended into. */
  predicate ObjectWidened(m: map<string, Json>, j: Json)
  {
    && j.Obj?
    && (NO_WIDENING in m ==> j.fields == m - {NO_WIDENING})
    && (NO_WIDENING !in m ==>
          && j.fields.Keys == m.Keys
          && ("type" in m ==> TypeWidened(m, j.fields["type"]))
          && forall k :: k in m && k != "type" ==> j.fields[k] == Widen(m[k]))
  }

  lemma WidenObject(m: map<string, Json>)
    ensures ObjectWidened(m, Widen(Obj(m)))
  {
    if NO_WIDENING !in m && "type" in m && m["type"].Arr? && !Closed(m) && Str("string") in m["type"].items {
      var xs := m["type"].items;
      var ys := WidenAll(xs) + Added(xs, "number") + Added(xs, "boolean");
      assert ys[|xs|..] == Added(xs, "number") + Added(xs, "boolean");
    }
  }

  /** A `type` as the specification has it: a name, or a list of names. */
  predicate Names(t: Json)
  {
    t.Str? || (t.Arr? && forall i :: 0 <= i < |t.items| ==> t.items[i].Str?)
  }

  /** A closed position keeps its `type`, and so does one that does not admit strings. */
  lemma TypeKept(m: map<string, Json>)
    requires NO_WIDENING !in m && "type" in m && Names(m["type"])
    requires || "enum" in m || "const" in m
             || (m["type"] != Str("string") && !(m["type"].Arr? && Str("string") in m["type"].items))
    ensures "type" in Widen(Obj(m)).fields && Widen(Obj(m)).fields["type"] == m["type"]
  {
    WidenObject(m);
    if m["type"].Arr? {
      StringsStay(m["type"].items);
    }
  }

  /** An open list of names with "string" keeps its names in place, and names each scalar at least
      once: as often as before if it did, and otherwise once. */
  lemma ListWidened(m: map<string, Json>, s: string)
    requires NO_WIDENING !in m && "type" in m && "enum" !in m && "const" !in m
    requires m["type"].Arr? && Names(m["type"]) && Str("string") in m["type"].items
    ensures var xs := m["type"].items;
            && "type" in Widen(Obj(m)).fields && Widen(Obj(m)).fields["type"].Arr?
            && var ys := Widen(Obj(m)).fields["type"].items;
            && xs <= ys
            && multiset(ys)[Str(s)] ==
                 if Str(s) !in xs && (s == "number" || s == "boolean") then 1 else multiset(xs)[Str(s)]
  {
    WidenObject(m);
    var xs, ys := m["type"].items, Widen(Obj(m)).fields["type"].items;
    var added := ys[|xs|..];
    StringsStay(xs);
    assert ys == xs + added;
    CountAppended(xs, added, Str(s));
    ScalarsAdded(Str("number") in xs, Str("boolean") in xs, Str(s), added);
  }

  lemma CountAppended(xs: seq<Json>, added: seq<Json>, j: Json)
    ensures multiset(xs + added)[j] == multiset(xs)[j] + multiset(added)[j]
  {
  }

  lemma ScalarsAdded(number: bool, boolean: bool, j: Json, added: seq<Json>)
    requires added == (if number then [] else [Str("number")]) + if boolean then [] else [Str("boolean")]
    ensures multiset(added)[j] == if (!number && j == Str("number")) || (!boolean && j == Str("boolean")) then 1 else 0
  {
  }

  /** The names the loop pushes onto an array of types that holds "string". */
  method MissingScalars(variants: seq<Json>) returns (extras: seq<Json>)
    ensures extras == Added(variants, "number") + Added(variants, "boolean")
  {
    extras := [];
    for i := 0 to 2
      invariant i == 0 ==> extras == []
      invariant i == 1 ==> extras == Added(variants, "number")
      invariant i == 2 ==> extras == Added(variants, "number") + Added(variants, "boolean")
    {
      var extra := ["number", "boolean"][i];
      if Str(extra) !in variants {
        extras := extras + [Str(extra)];
      }
    }
  }

  method WidenScalarStrings(value: Json) returns (r: Json)
    ensures r == Widen(value)
    ensures value.Obj? ==> ObjectWidened(value.fields, r)
    decreases value, 2
  {
    match value
    case Obj(m) =>
      WidenObject(m);
      if NO_WIDENING in m {
        return Obj(m - {NO_WIDENING});
      }
      var fields := WidenFields(value);
      r := Obj(fields);
    case Arr(xs) =>
      var items := WidenItems(xs);
      r := Arr(items);
    case _ => r := value;
  }

  /** The fields of an unmarked object, one after the other. */
  method WidenFields(value: Json) returns (fields: map<string, Json>)
    requires value.Obj? && NO_WIDENING !in value.fields
    ensures Obj(fields) == Widen(value)
    decreases value, 1
  {
    var m := value.fields;
    fields := map[];
    var rest := m.Keys;
    while rest != {}
      invariant rest <= m.Keys && fields.Keys == m.Keys - rest
      invariant forall k :: k in fields ==>
        fields[k] == if k == "type" && !Closed(m) then WidenType(m[k]) else Widen(m[k])
    {
      var k :| k in rest;
      rest := rest - {k};
      var child := WidenScalarStrings(m[k]);
      if k == "type" && !Closed(m) {
        child := WidenTypeKeyword(m[k], child);
      }
      fields := fields[k := child];
    }
  }

  /** The open `type` keyword `t`, of which `child` is the descent. */
  method WidenTypeKeyword(t: Json, child: Json) returns (r: Json)
    requires child == Widen(t)
    ensures r == WidenType(t)
  {
    r := child;
    if t == Str("string") {
      r := Arr(SCALARS);
    } else if t.Arr? && Str("string") in t.items {
      var extras := MissingScalars(t.items);
      r := Arr(child.items + extras);
    }
  }

  method WidenItems(xs: seq<Json>) returns (items: seq<Json>)
    ensures items == WidenAll(xs)
    decreases xs, 0
  {
    items := [];
    for i := 0 to |xs|
      invariant items == WidenAll(xs[..i])
    {
      var item := WidenScalarStrings(xs[i]);
      assert xs[..i + 1][..i] == xs[..i];
      items := items + [item];
    }
    assert xs[..|xs|] == xs;
  }

  // ---- What a schema means ----

  predicate HasType(t: string, v: Json)
  {
    match v
    case Null => t == "null"
    case Bool(_) => t == "boolean"
    case Num(x) => t == "number" || (t == "integer" && x.Floor as real == x)
    case Str(_) => t == "string"
    case Arr(_) => t == "array"
    case Obj(_) => t == "object"
  }

  predicate AdmitsType(t: Json, v: Json)
  {
    match t
    case Str(s) => HasType(s, v)
    case Arr(xs) => exists i :: 0 <= i < |xs| && xs[i].Str? && HasType(xs[i].s, v)
    case _ => false
  }

  /** An integer is a number without a fractional part. */
  lemma IntegersAreWhole(v: Json)
    ensures AdmitsType(Str("integer"), v) <==> v.Num? && exists k: int :: Whole(k, v.n)
    ensures AdmitsType(Str("integer"), v) ==> AdmitsType(Str("number"), v)
  {
    if v.Num? && v.n.Floor as real == v.n {
      assert Whole(v.n.Floor, v.n);
    }
  }

  predicate Whole(k: int, x: real) { x == k as real }

  /** With `coerce`, a position that admits strings also admits what the reader turns into a
      string: a number or a boolean. */
  predicate TypeOk(m: map<string, Json>, v: Json, coerce: bool)
  {
    "type" in m ==>
      || AdmitsType(m["type"], v)
      || (coerce && "enum" !in m && "const" !in m && (v.Num? || v.Bool?) &&
          (m["type"] == Str("string") || (m["type"].Arr? && Str("string") in m["type"].items)))
  }

  predicate ValuesOk(m: map<string, Json>, v: Json)
  {
    && ("enum" in m ==> m["enum"].Arr? && v in m["enum"].items)
    && ("const" in m ==> v == m["const"])
    && ("required" in m && v.Obj? ==> m["required"].Arr? && forall j :: j in m["required"].items && j.Str? ==>
        j.s in v.fields)
  }

  const DEFS := "#/$defs/"

  /** The definition a `$ref` names; a reference to nothing is satisfied by nothing. */
  function Resolve(root: Json, ref: Json): Json
  {
    if ref.Str? && DEFS <= ref.s && root.Obj? && "$defs" in root.fields && root.fields["$defs"].Obj?
       && ref.s[|DEFS|..] in root.fields["$defs"].fields
    then root.fields["$defs"].fields[ref.s[|DEFS|..]] else Bool(false)
  }

  /** Whether `v` satisfies `schema` within `n` nested applications of keywords. `coerce` says
      whether string positions here take numbers and booleans too; a marked subtree never does,
      and a `$ref` out of it does again if the reading is `lenient`. */
  predicate Eval(n: nat, root: Json, schema: Json, v: Json, coerce: bool, lenient: bool)
    decreases n, 2, 0
  {
    match schema
    case Bool(b) => b
    case Obj(m) =>
      var c := coerce && NO_WIDENING !in m;
      n > 0 && TypeOk(m, v, c) && ValuesOk(m, v) && InPlace(n, root, m, v, c, lenient) &&
          Children(n, root, m, v, c, lenient)
    case _ => false
  }

  predicate InPlace(n: nat, root: Json, m: map<string, Json>, v: Json, c: bool, lenient: bool)
    requires n > 0
    decreases n, 1, 1
  {
    && RefOk(n, root, m, v, lenient)
    && Combined(n, root, m, "allOf", v, c, lenient)
    && Combined(n, root, m, "anyOf", v, c, lenient)
    && Combined(n, root, m, "oneOf", v, c, lenient)
  }

  predicate RefOk(n: nat, root: Json, m: map<string, Json>, v: Json, lenient: bool)
    requires n > 0
    decreases n, 1, 0
  {
    "$ref" in m ==> Eval(n - 1, root, Resolve(root, m["$ref"]), v, lenient, lenient)
  }

  /** The document defines `name`. */
  predicate Defines(root: Json, name: string)
  {
    root.Obj? && "$defs" in root.fields && root.fields["$defs"].Obj? && name in root.fields["$defs"].fields
  }

  /** A reference by name means the definition, and no value satisfies one to a name without any. */
  lemma ReferenceMeans(n: nat, root: Json, m: map<string, Json>, name: string, v: Json, c: bool, lenient: bool)
    requires "$ref" in m && m["$ref"] == Str("#/$defs/" + name)
    ensures Defines(root, name) ==> Resolve(root, m["$ref"]) == root.fields["$defs"].fields[name]
    ensures !Defines(root, name) ==> !Eval(n, root, Obj(m), v, c, lenient)
  {
    assert DEFS <= DEFS + name && (DEFS + name)[|DEFS|..] == name;
    if n > 0 && !Defines(root, name) {
      assert Resolve(root, m["$ref"]) == Bool(false);
      assert !RefOk(n, root, m, v, lenient);
    }
  }

  const COMBINATORS: set<string> := {"allOf", "anyOf", "oneOf"}

  predicate Combined(n: nat, root: Json, m: map<string, Json>, key: string, v: Json, c: bool, lenient: bool)
    requires n > 0
    decreases n, 1, 0
  {
    key in m ==>
      && m[key].Arr?
      && var matches := Matches(n, root, m[key].items, v, c, lenient);
         if key == "allOf" then matches == |m[key].items| else if key == "anyOf" then matches > 0 else matches == 1
  }

  /** How many of the branches `v` satisfies. */
  function Matches(n: nat, root: Json, branches: seq<Json>, v: Json, c: bool, lenient: bool): (r: nat)
    requires n > 0
    ensures r <= |branches|
    decreases n, 0, |branches|
  {
    if branches == [] then 0
    else
      Matches(n, root, branches[..|branches| - 1], v, c, lenient)
      + if Eval(n - 1, root, branches[|branches| - 1], v, c, lenient) then 1 else 0
  }

  function CountTrue(bits: seq<bool>): (r: nat)
    ensures r <= |bits|
  {
    if bits == [] then 0 else CountTrue(bits[..|bits| - 1]) + if bits[|bits| - 1] then 1 else 0
  }

  lemma {:induction false} CountAll(bits: seq<bool>)
    ensures CountTrue(bits) == |bits| <==> forall i :: 0 <= i < |bits| ==> bits[i]
  {
    if bits != [] {
      CountAll(bits[..|bits| - 1]);
    }
  }

  lemma {:induction false} CountNone(bits: seq<bool>)
    ensures CountTrue(bits) == 0 <==> forall i :: 0 <= i < |bits| ==> !bits[i]
  {
    if bits != [] {
      CountNone(bits[..|bits| - 1]);
    }
  }

  /** `i` is the one true bit. */
  predicate Only(bits: seq<bool>, i: int)
  {
    0 <= i < |bits| && bits[i] && forall j :: 0 <= j < |bits| && bits[j] ==> j == i
  }

  lemma {:induction false} CountOne(bits: seq<bool>)
    ensures CountTrue(bits) == 1 <==> exists i :: Only(bits, i)
  {
    if bits != [] {
      var l := |bits| - 1;
      var init := bits[..l];
      CountOne(init);
      CountNone(init);
      if bits[l] {
        assert CountTrue(init) == 0 <==> Only(bits, l);
      } else {
        assert forall i :: Only(bits, i) <==> Only(init, i);
      }
    }
  }

  lemma {:induction false} MatchesCount(n: nat, root: Json, branches: seq<Json>, v: Json, c: bool, lenient: bool,
                                        bits: seq<bool>)
    requires n > 0 && |bits| == |branches|
    requires forall i :: 0 <= i < |bits| ==> bits[i] == Eval(n - 1, root, branches[i], v, c, lenient)
    ensures Matches(n, root, branches, v, c, lenient) == CountTrue(bits)
    decreases |branches|
  {
    if branches != [] {
      var l := |branches| - 1;
      MatchesCount(n, root, branches[..l], v, c, lenient, bits[..l]);
    }
  }

  /** `allOf` asks for every branch, `anyOf` for one at least, and `oneOf` for one and no other: `takes[i]`
      says whether branch `i` is satisfied. */
  lemma CombinatorMeans(n: nat, root: Json, m: map<string, Json>, key: string, v: Json, c: bool, lenient: bool,
                        takes: seq<bool>)
    requires n > 0 && key in COMBINATORS && key in m && m[key].Arr? && |takes| == |m[key].items|
    requires forall i :: 0 <= i < |takes| ==> takes[i] == Eval(n - 1, root, m[key].items[i], v, c, lenient)
    ensures key == "allOf" ==>
              (Combined(n, root, m, key, v, c, lenient) <==> forall i :: 0 <= i < |takes| ==> takes[i])
    ensures key == "anyOf" ==>
              (Combined(n, root, m, key, v, c, lenient) <==> exists i :: 0 <= i < |takes| && takes[i])
    ensures key == "oneOf" ==>
              (Combined(n, root, m, key, v, c, lenient) <==> exists i :: Only(takes, i))
  {
    CombinedCounts(n, root, m, key, v, c, lenient, takes);
    CountAll(takes);
    CountNone(takes);
    CountOne(takes);
  }

  lemma CombinedCounts(n: nat, root: Json, m: map<string, Json>, key: string, v: Json, c: bool, lenient: bool,
                       takes: seq<bool>)
    requires n > 0 && key in m && m[key].Arr? && |takes| == |m[key].items|
    requires forall i :: 0 <= i < |takes| ==> takes[i] == Eval(n - 1, root, m[key].items[i], v, c, lenient)
    ensures Combined(n, root, m, key, v, c, lenient) <==>
            if key == "allOf" then CountTrue(takes) == |takes|
            else if key == "anyOf" then CountTrue(takes) > 0 else CountTrue(takes) == 1
  {
    MatchesCount(n, root, m[key].items, v, c, lenient, takes);
  }

  function Properties(m: map<string, Json>): map<string, Json>
  {
    if "properties" in m && m["properties"].Obj? then m["properties"].fields else map[]
  }

  predicate Children(n: nat, root: Json, m: map<string, Json>, v: Json, c: bool, lenient: bool)
    requires n > 0
    decreases n, 1, 0
  {
    && (v.Obj? ==> forall k :: k in v.fields && k in Properties(m) ==>
                     Eval(n - 1, root, Properties(m)[k], v.fields[k], c, lenient))
    && (v.Obj? && "additionalProperties" in m ==>
          forall k :: k in v.fields && k !in Properties(m) ==>
            Eval(n - 1, root, m["additionalProperties"], v.fields[k], c, lenient))
    && (v.Arr? && "items" in m ==>
          forall i :: 0 <= i < |v.items| ==> Eval(n - 1, root, m["items"], v.items[i], c, lenient))
  }

  /** Validation, as JSON Schema defines it, to a depth of `n` nested keywords; see `Valid`. */
  predicate Accepts(n: nat, root: Json, schema: Json, v: Json)
  {
    Eval(n, root, schema, v, false, false)
  }

  /** What the scenario reader takes, to that depth: strings are read from any plain scalar, except
      at marked positions. */
  predicate Reads(n: nat, root: Json, schema: Json, v: Json)
  {
    Eval(n, root, schema, v, true, true)
  }

  // ---- Which schemas are well formed ----

  /** A `type` that lists strings without numbers or without booleans. */
  predicate Widens(t: Json)
  {
    || t == Str("string")
    || (t.Arr? && Str("string") in t.items && !(Str("number") in t.items && Str("boolean") in t.items))
  }

  /** No object inside carries the marker, and none is open with a `type` that widens. */
  predicate Stable(j: Json)
  {
    match j
    case Obj(m) =>
      && NO_WIDENING !in m && ("type" in m && "enum" !in m && "const" !in m ==> !Widens(m["type"]))
      && forall k :: k in m ==> Stable(m[k])
    case Arr(xs) => forall i :: 0 <= i < |xs| ==> Stable(xs[i])
    case _ => true
  }

  /** A boolean, or an object whose keywords have the shapes the specification gives them, whose
      constants are stable, and whose maps of named schemas do not use the marker as a name. */
  predicate WellFormed(j: Json)
  {
    match j
    case Bool(_) => true
    case Obj(m) =>
      || NO_WIDENING in m
      || (&& ("type" in m ==> m["type"].Str? || (m["type"].Arr? && forall i :: 0 <= i < |m["type"].items| ==>
                                                 m["type"].items[i].Str?))
          && (forall k :: k in {"enum", "const", "required", "$ref"} && k in m ==> Stable(m[k]))
          && (forall k :: k in {"additionalProperties", "items"} && k in m ==> WellFormed(m[k]))
          && (forall k :: k in COMBINATORS && k in m ==>
                m[k].Arr? && forall i :: 0 <= i < |m[k].items| ==> WellFormed(m[k].items[i]))
          && (forall k :: k in {"properties", "$defs"} && k in m ==>
                m[k].Obj? && NO_WIDENING !in m[k].fields && forall p :: p in m[k].fields ==>
                    WellFormed(m[k].fields[p])))
    case _ => false
  }

  /** A document: a well-formed schema that is not marked as a whole. */
  predicate Document(root: Json)
  {
    WellFormed(root) && (root.Obj? ==> NO_WIDENING !in root.fields)
  }

  // ---- Widening leaves stable constants alone and widens schemas in place ----

  /** Widening leaves exactly the stable values alone. */
  lemma {:induction false} FixedExactly(j: Json)
    ensures Widen(j) == j <==> Stable(j)
    decreases j, 2
  {
    match j
    case Obj(m) => FixedObject(m);
    case Arr(xs) => FixedList(xs);
    case _ =>
  }

  lemma {:induction false} FixedList(xs: seq<Json>)
    ensures WidenAll(xs) == xs <==> forall i :: 0 <= i < |xs| ==> Stable(xs[i])
    decreases xs, 0
  {
    forall i | 0 <= i < |xs| ensures Widen(xs[i]) == xs[i] <==> Stable(xs[i]) {
      FixedExactly(xs[i]);
    }
    if WidenAll(xs) == xs {
      forall i | 0 <= i < |xs| ensures Stable(xs[i]) {
        assert WidenAll(xs)[i] == Widen(xs[i]);
      }
    }
  }

  lemma {:induction false} NothingAdded(ws: seq<Json>, ys: seq<Json>, zs: seq<Json>, xs: seq<Json>)
    requires |ws| == |xs|
    ensures ws + ys + zs == xs <==> ws == xs && ys == [] && zs == []
  {
    assert |ws + ys + zs| == |xs| + |ys| + |zs|;
  }

  lemma {:induction false} FixedType(t: Json)
    ensures WidenType(t) == t <==> !Widens(t) && Stable(t)
    decreases t, 3
  {
    match t
    case Arr(xs) =>
      FixedList(xs);
      if Str("string") in xs {
        NothingAdded(WidenAll(xs), Added(xs, "number"), Added(xs, "boolean"), xs);
      }
    case Obj(_) => FixedExactly(t);
    case _ =>
  }

  lemma {:induction false} FixedObject(m: map<string, Json>)
    ensures Widen(Obj(m)) == Obj(m) <==> Stable(Obj(m))
    decreases Obj(m), 1
  {
    if NO_WIDENING !in m {
      var m' := Widen(Obj(m)).fields;
      forall k | k in m ensures m'[k] == m[k] <==> Stable(m[k]) && (k == "type" && !Closed(m) ==> !Widens(m[k])) {
        if k == "type" && !Closed(m) {
          FixedType(m[k]);
        } else {
          FixedExactly(m[k]);
        }
      }
      assert m' == m <==> forall k :: k in m ==> m'[k] == m[k];
    }
  }

  /** A map of named schemas, widened: every schema, under its name. */
  lemma NamedWiden(j: Json)
    requires j.Obj? && NO_WIDENING !in j.fields && forall p :: p in j.fields ==> WellFormed(j.fields[p])
    ensures Widen(j) == Obj(map p | p in j.fields :: Widen(j.fields[p]))
  {
    var m := j.fields;
    if "type" in m {
      assert WellFormed(m["type"]);
      assert WidenType(m["type"]) == Widen(m["type"]);
    }
  }

  /** Exactly the maps that do not use the marker as a name are widened so: in any other the code takes
      the name for the marker, drops it and leaves the rest alone. */
  lemma NamedWidenExactly(j: Json)
    requires j.Obj? && forall p :: p in j.fields ==> WellFormed(j.fields[p])
    ensures Widen(j) == Obj(map p | p in j.fields :: Widen(j.fields[p])) <==> NO_WIDENING !in j.fields
  {
    if NO_WIDENING !in j.fields {
      NamedWiden(j);
    } else {
      var named := map p | p in j.fields :: Widen(j.fields[p]);
      assert NO_WIDENING in named && NO_WIDENING !in Widen(j).fields;
    }
  }

  lemma ResolveWiden(root: Json, ref: Json)
    requires Document(root)
    ensures Resolve(Widen(root), ref) == Widen(Resolve(root, ref)) && WellFormed(Resolve(root, ref))
  {
    if root.Obj? && "$defs" in root.fields {
      NamedWiden(root.fields["$defs"]);
    }
  }

  /** The widened `type` keyword admits exactly what the coercing one does. */
  lemma TypeWiden(m: map<string, Json>, v: Json)
    requires WellFormed(Obj(m)) && NO_WIDENING !in m
    ensures TypeOk(Widen(Obj(m)).fields, v, false) == TypeOk(m, v, true)
  {
    if "type" in m {
      var t := m["type"];
      var m' := Widen(Obj(m)).fields;
      assert "type" in m' && m'["type"] == if Closed(m) then Widen(t) else WidenType(t);
      if t.Str? {
        TypeNameWiden(t.s, v);
      } else {
        StringsStay(t.items);
        TypeListWiden(t.items, v);
      }
    }
  }

  lemma TypeNameWiden(s: string, v: Json)
    ensures AdmitsType(WidenType(Str(s)), v) == (AdmitsType(Str(s), v) || (s == "string" && (v.Num? || v.Bool?)))
  {
    if s == "string" {
      assert SCALARS[0] == Str("string") && SCALARS[1] == Str("number") && SCALARS[2] == Str("boolean");
      if v.Num? { assert HasType(SCALARS[1].s, v); }
      if v.Bool? { assert HasType(SCALARS[2].s, v); }
      if v.Str? { assert HasType(SCALARS[0].s, v); }
    }
  }

  lemma TypeListWiden(xs: seq<Json>, v: Json)
    requires forall i :: 0 <= i < |xs| ==> xs[i].Str?
    ensures Str("string") in xs ==>
              AdmitsType(Arr(xs + Added(xs, "number") + Added(xs, "boolean")), v) ==
                  (AdmitsType(Arr(xs), v) || v.Num? || v.Bool?)
  {
    var ys := xs + Added(xs, "number") + Added(xs, "boolean");
    if Str("string") in xs {
      assert Str("number") in ys && Str("boolean") in ys;
      forall i | 0 <= i < |xs| ensures ys[i] == xs[i] {
      }
      forall i | |xs| <= i < |ys| ensures ys[i] == Str("number") || ys[i] == Str("boolean") {
      }
      if v.Num? {
        var i :| 0 <= i < |ys| && ys[i] == Str("number");
        assert HasType(ys[i].s, v);
      }
      if v.Bool? {
        var i :| 0 <= i < |ys| && ys[i] == Str("boolean");
        assert HasType(ys[i].s, v);
      }
    }
  }

  lemma ValuesWiden(m: map<string, Json>, v: Json)
    requires WellFormed(Obj(m)) && NO_WIDENING !in m
    ensures ValuesOk(Widen(Obj(m)).fields, v) == ValuesOk(m, v)
    ensures forall k :: k in {"enum", "const", "required", "$ref"} && k in m ==> Widen(Obj(m)).fields[k] == m[k]
  {
    forall k | k in {"enum", "const", "required", "$ref"} && k in m ensures Widen(Obj(m)).fields[k] == m[k] {
      FixedExactly(m[k]);
    }
  }

  predicate BranchesWidened(m: map<string, Json>, m': map<string, Json>, key: string)
  {
    && (key in m' <==> key in m)
    && (key in m ==>
          && m[key].Arr? && m'[key] == Arr(WidenAll(m[key].items))
          && forall i :: 0 <= i < |m[key].items| ==> WellFormed(m[key].items[i]))
  }

  lemma BranchesWiden(m: map<string, Json>, key: string)
    requires WellFormed(Obj(m)) && NO_WIDENING !in m && key in COMBINATORS
    ensures BranchesWidened(m, Widen(Obj(m)).fields, key)
  {
    assert key != "type";
  }

  predicate ChildrenWidened(m: map<string, Json>, m': map<string, Json>)
  {
    && Properties(m').Keys == Properties(m).Keys
    && (forall k :: k in Properties(m) ==> WellFormed(Properties(m)[k]) && Properties(m')[k] == Widen(Properties(m)[k]))
    && (forall k :: k in {"additionalProperties", "items"} ==>
          (k in m' <==> k in m) && (k in m ==> WellFormed(m[k]) && m'[k] == Widen(m[k])))
  }

  lemma ChildSchemasWiden(m: map<string, Json>)
    requires WellFormed(Obj(m)) && NO_WIDENING !in m
    ensures ChildrenWidened(m, Widen(Obj(m)).fields)
  {
    if "properties" in m {
      NamedWiden(m["properties"]);
    }
  }

  // ---- The widened schema means what the reader takes ----

  /** A schema with no `$ref` where its keywords apply. */
  predicate RefFree(j: Json)
  {
    match j
    case Obj(m) =>
      && "$ref" !in m
      && (forall k :: k in {"additionalProperties", "items"} && k in m ==> RefFree(m[k]))
      && (forall k :: k in COMBINATORS && k in m && m[k].Arr? ==>
            forall i :: 0 <= i < |m[k].items| ==> RefFree(m[k].items[i]))
      && ("properties" in m && m["properties"].Obj? ==>
            forall p :: p in m["properties"].fields ==> RefFree(m["properties"].fields[p]))
    case _ => true
  }

  ghost predicate SameDefinitions(wide: Json, root: Json)
  {
    forall ref :: Resolve(wide, ref) == Resolve(root, ref)
  }

  /** Two documents that give an uncoerced schema the same meaning: any two if it has no `$ref`,
      else a document read leniently and its widened form, or two with the same definitions. */
  ghost predicate Agree(wide: Json, root: Json, l: bool, schema: Json)
  {
    RefFree(schema) || AgreeOnRefs(wide, root, l)
  }

  ghost predicate AgreeOnRefs(wide: Json, root: Json, l: bool)
  {
    if l then Document(root) && wide == Widen(root) else SameDefinitions(wide, root)
  }

  /** Under a marker nothing is coerced; only a `$ref` leaves the marked subtree. */
  lemma {:induction false} StrictSame(n: nat, wide: Json, root: Json, l: bool, schema: Json, v: Json)
    requires Agree(wide, root, l, schema)
    ensures Eval(n, wide, schema, v, false, false) == Eval(n, root, schema, v, false, l)
    decreases n, 3, 0
  {
    if schema.Obj? && n > 0 {
      InPlaceStrict(n, wide, root, l, schema.fields, v);
      AgreeInside(wide, root, l, schema.fields);
      ChildrenStrict(n, wide, root, l, schema.fields, v);
    }
  }

  ghost predicate AgreeAll(wide: Json, root: Json, l: bool, schemas: seq<Json>)
  {
    forall i :: 0 <= i < |schemas| ==> Agree(wide, root, l, schemas[i])
  }

  ghost predicate ChildrenAgree(wide: Json, root: Json, l: bool, m: map<string, Json>)
  {
    && (forall k :: k in Properties(m) ==> Agree(wide, root, l, Properties(m)[k]))
    && (forall k :: k in {"additionalProperties", "items"} && k in m ==> Agree(wide, root, l, m[k]))
  }

  lemma {:induction false} AgreeInside(wide: Json, root: Json, l: bool, m: map<string, Json>)
    requires Agree(wide, root, l, Obj(m))
    ensures forall key :: key in COMBINATORS && key in m && m[key].Arr? ==> AgreeAll(wide, root, l, m[key].items)
    ensures ChildrenAgree(wide, root, l, m)
  {
    if !AgreeOnRefs(wide, root, l) {
      FreeInside(wide, root, l, m);
    }
  }

  lemma {:induction false} FreeInside(wide: Json, root: Json, l: bool, m: map<string, Json>)
    requires RefFree(Obj(m))
    ensures forall key :: key in COMBINATORS && key in m && m[key].Arr? ==> AgreeAll(wide, root, l, m[key].items)
    ensures ChildrenAgree(wide, root, l, m)
  {
    forall key | key in COMBINATORS && key in m && m[key].Arr? ensures AgreeAll(wide, root, l, m[key].items) {
      FreeBranches(m, key);
    }
    FreeChildren(m);
  }

  lemma {:induction false} FreeBranches(m: map<string, Json>, key: string)
    requires RefFree(Obj(m)) && key in COMBINATORS && key in m && m[key].Arr?
    ensures forall i :: 0 <= i < |m[key].items| ==> RefFree(m[key].items[i])
  {
  }

  lemma {:induction false} FreeChildren(m: map<string, Json>)
    requires RefFree(Obj(m))
    ensures forall k :: k in Properties(m) ==> RefFree(Properties(m)[k])
    ensures forall k :: k in {"additionalProperties", "items"} && k in m ==> RefFree(m[k])
  {
  }

  lemma {:induction false} InPlaceStrict(n: nat, wide: Json, root: Json, l: bool, m: map<string, Json>, v: Json)
    requires n > 0 && Agree(wide, root, l, Obj(m))
    ensures InPlace(n, wide, m, v, false, false) == InPlace(n, root, m, v, false, l)
    decreases n, 2, 1
  {
    assert RefOk(n, wide, m, v, false) == RefOk(n, root, m, v, l) by {
      if "$ref" in m {
        RefStrict(n, wide, root, l, m, v);
      }
    }
    AgreeInside(wide, root, l, m);
    CombinedStrict(n, wide, root, l, m, "allOf", v);
    CombinedStrict(n, wide, root, l, m, "anyOf", v);
    CombinedStrict(n, wide, root, l, m, "oneOf", v);
  }

  lemma {:induction false} RefStrict(n: nat, wide: Json, root: Json, l: bool, m: map<string, Json>, v: Json)
    requires n > 0 && "$ref" in m && Agree(wide, root, l, Obj(m))
    ensures RefOk(n, wide, m, v, false) == RefOk(n, root, m, v, l)
    decreases n, 2, 0
  {
    if l {
      ResolveWiden(root, m["$ref"]);
      Exact(n - 1, root, Resolve(root, m["$ref"]), v);
    } else {
      StrictSame(n - 1, wide, root, l, Resolve(root, m["$ref"]), v);
    }
  }

  lemma {:induction false} CombinedStrict(n: nat, wide: Json, root: Json, l: bool, m: map<string, Json>, key: string,
                                          v: Json)
    requires n > 0 && (key in m && m[key].Arr? ==> AgreeAll(wide, root, l, m[key].items))
    ensures Combined(n, wide, m, key, v, false, false) == Combined(n, root, m, key, v, false, l)
    decreases n, 2, 0
  {
    if key in m && m[key].Arr? {
      MatchesStrict(n, wide, root, l, m[key].items, v);
    }
  }

  lemma {:induction false} MatchesStrict(n: nat, wide: Json, root: Json, l: bool, branches: seq<Json>, v: Json)
    requires n > 0 && AgreeAll(wide, root, l, branches)
    ensures Matches(n, wide, branches, v, false, false) == Matches(n, root, branches, v, false, l)
    decreases n, 1, |branches|
  {
    if branches != [] {
      MatchesStrict(n, wide, root, l, branches[..|branches| - 1], v);
      StrictSame(n - 1, wide, root, l, branches[|branches| - 1], v);
    }
  }

  lemma {:induction false} ChildrenStrict(n: nat, wide: Json, root: Json, l: bool, m: map<string, Json>, v: Json)
    requires n > 0 && ChildrenAgree(wide, root, l, m)
    ensures Children(n, wide, m, v, false, false) == Children(n, root, m, v, false, l)
    decreases n, 2, 1
  {
    if v.Obj? {
      FieldsStrict(n, wide, root, l, m, v);
    }
    if v.Arr? && "items" in m {
      forall i | 0 <= i < |v.items| {
        StrictSame(n - 1, wide, root, l, m["items"], v.items[i]);
      }
    }
  }

  lemma {:induction false} FieldsStrict(n: nat, wide: Json, root: Json, l: bool, m: map<string, Json>, v: Json)
    requires n > 0 && ChildrenAgree(wide, root, l, m) && v.Obj?
    ensures Children(n, wide, m, v, false, false) == Children(n, root, m, v, false, l)
    decreases n, 2, 0
  {
    forall k | k in v.fields && k in Properties(m) {
      StrictSame(n - 1, wide, root, l, Properties(m)[k], v.fields[k]);
    }
    if "additionalProperties" in m {
      forall k | k in v.fields && k !in Properties(m) {
        StrictSame(n - 1, wide, root, l, m["additionalProperties"], v.fields[k]);
      }
    }
  }

  /** The marker itself has no meaning to a validator. */
  lemma MarkerIgnored(n: nat, root: Json, m: map<string, Json>, v: Json)
    ensures Eval(n, root, Obj(m - {NO_WIDENING}), v, false, false) == Eval(n, root, Obj(m), v, false, false)
  {
    if n > 0 {
      SameWithoutMarker(n, root, m, v);
    }
  }

  lemma SameWithoutMarker(n: nat, root: Json, m: map<string, Json>, v: Json)
    requires n > 0
    ensures InPlace(n, root, m - {NO_WIDENING}, v, false, false) == InPlace(n, root, m, v, false, false)
    ensures Children(n, root, m - {NO_WIDENING}, v, false, false) == Children(n, root, m, v, false, false)
  {
    assert Children(n, root, m - {NO_WIDENING}, v, false, false) == Children(n, root, m, v, false, false) by {
      assert Properties(m - {NO_WIDENING}) == Properties(m);
    }
    CombinedWithoutMarker(n, root, m, "allOf", v);
    CombinedWithoutMarker(n, root, m, "anyOf", v);
    CombinedWithoutMarker(n, root, m, "oneOf", v);
  }

  lemma CombinedWithoutMarker(n: nat, root: Json, m: map<string, Json>, key: string, v: Json)
    requires n > 0 && key != NO_WIDENING
    ensures Combined(n, root, m - {NO_WIDENING}, key, v, false, false) == Combined(n, root, m, key, v, false, false)
  {
  }

  /** Validating against the widened schema is reading against the original one, for every
      well-formed schema, `oneOf` included, and every value. */
  lemma {:induction false} Exact(n: nat, root: Json, schema: Json, v: Json)
    requires Document(root) && WellFormed(schema)
    ensures Accepts(n, Widen(root), Widen(schema), v) == Reads(n, root, schema, v)
    decreases n, 4, 0
  {
    if schema.Obj? {
      var m := schema.fields;
      if NO_WIDENING in m {
        MarkerIgnored(n, Widen(root), m, v);
        StrictSame(n, Widen(root), root, true, schema, v);
      } else if n > 0 {
        TypeWiden(m, v);
        ValuesWiden(m, v);
        InPlaceExact(n, root, m, v);
        ChildrenExact(n, root, m, v);
      }
    }
  }

  lemma {:induction false} InPlaceExact(n: nat, root: Json, m: map<string, Json>, v: Json)
    requires Document(root) && n > 0 && WellFormed(Obj(m)) && NO_WIDENING !in m
    ensures InPlace(n, Widen(root), Widen(Obj(m)).fields, v, false, false) == InPlace(n, root, m, v, true, true)
    decreases n, 2, 2
  {
    RefExact(n, root, m, v);
    CombinedExact(n, root, m, "allOf", v);
    CombinedExact(n, root, m, "anyOf", v);
    CombinedExact(n, root, m, "oneOf", v);
  }

  lemma {:induction false} RefExact(n: nat, root: Json, m: map<string, Json>, v: Json)
    requires Document(root) && n > 0 && WellFormed(Obj(m)) && NO_WIDENING !in m
    ensures RefOk(n, Widen(root), Widen(Obj(m)).fields, v, false) == RefOk(n, root, m, v, true)
    decreases n, 2, 1
  {
    ValuesWiden(m, v);
    if "$ref" in m {
      RefStrict(n, Widen(root), root, true, m, v);
    }
  }

  lemma {:induction false} CombinedExact(n: nat, root: Json, m: map<string, Json>, key: string, v: Json)
    requires Document(root) && n > 0 && WellFormed(Obj(m)) && NO_WIDENING !in m && key in COMBINATORS
    ensures Combined(n, Widen(root), Widen(Obj(m)).fields, key, v, false, false) ==
            Combined(n, root, m, key, v, true, true)
    decreases n, 2, 1
  {
    BranchesWiden(m, key);
    CombinedPart(n, root, m, Widen(Obj(m)).fields, key, v);
  }

  lemma {:induction false} CombinedPart(n: nat, root: Json, m: map<string, Json>, m': map<string, Json>, key: string,
                                        v: Json)
    requires Document(root) && n > 0 && BranchesWidened(m, m', key)
    ensures Combined(n, Widen(root), m', key, v, false, false) == Combined(n, root, m, key, v, true, true)
    decreases n, 2, 0
  {
    if key in m {
      MatchesExact(n, root, m[key].items, v);
    }
  }

  lemma {:induction false} MatchesExact(n: nat, root: Json, branches: seq<Json>, v: Json)
    requires Document(root) && n > 0 && forall i :: 0 <= i < |branches| ==> WellFormed(branches[i])
    ensures Matches(n, Widen(root), WidenAll(branches), v, false, false) == Matches(n, root, branches, v, true, true)
    decreases n, 1, |branches|
  {
    if branches != [] {
      var l := |branches| - 1;
      MatchesExact(n, root, branches[..l], v);
      Exact(n - 1, root, branches[l], v);
      WidenAllPrefix(branches, l);
    }
  }

  lemma {:induction false} WidenAllPrefix(xs: seq<Json>, l: nat)
    requires l <= |xs|
    ensures WidenAll(xs)[..l] == WidenAll(xs[..l])
  {
    forall i | 0 <= i < l ensures WidenAll(xs)[..l][i] == WidenAll(xs[..l])[i] {
      assert xs[..l][i] == xs[i];
    }
  }

  lemma {:induction false} ChildrenExact(n: nat, root: Json, m: map<string, Json>, v: Json)
    requires Document(root) && n > 0 && WellFormed(Obj(m)) && NO_WIDENING !in m
    ensures Children(n, Widen(root), Widen(Obj(m)).fields, v, false, false) == Children(n, root, m, v, true, true)
    decreases n, 2, 1
  {
    ChildSchemasWiden(m);
    ChildrenPart(n, root, m, Widen(Obj(m)).fields, v);
  }

  lemma {:induction false} ChildrenPart(n: nat, root: Json, m: map<string, Json>, m': map<string, Json>, v: Json)
    requires Document(root) && n > 0 && ChildrenWidened(m, m')
    ensures Children(n, Widen(root), m', v, false, false) == Children(n, root, m, v, true, true)
    decreases n, 2, 0
  {
    if v.Obj? {
      forall k | k in v.fields && k in Properties(m) {
        Exact(n - 1, root, Properties(m)[k], v.fields[k]);
      }
      if "additionalProperties" in m {
        forall k | k in v.fields {
          Exact(n - 1, root, m["additionalProperties"], v.fields[k]);
        }
      }
    }
    if v.Arr? && "items" in m {
      forall i | 0 <= i < |v.items| {
        Exact(n - 1, root, m["items"], v.items[i]);
      }
    }
  }

  /** A marked subtree of a widened document is read strictly, except that a `$ref` out of it names
      a definition that has been widened. So it keeps its meaning at a value exactly when reading
      those references leniently makes no difference there. */
  lemma MarkedExactly(n: nat, root: Json, m: map<string, Json>, v: Json)
    requires Document(root) && NO_WIDENING in m
    ensures Accepts(n, Widen(root), Widen(Obj(m)), v) == Eval(n, root, Obj(m), v, false, true)
    ensures Accepts(n, Widen(root), Widen(Obj(m)), v) == Accepts(n, root, Obj(m), v) <==>
            Eval(n, root, Obj(m), v, false, true) == Eval(n, root, Obj(m), v, false, false)
  {
    MarkerIgnored(n, Widen(root), m, v);
    StrictSame(n, Widen(root), root, true, Obj(m), v);
  }

  /** In particular if it has no `$ref`. */
  lemma MarkedKeepsMeaning(n: nat, root: Json, m: map<string, Json>, v: Json)
    requires NO_WIDENING in m && RefFree(Obj(m))
    ensures Accepts(n, Widen(root), Widen(Obj(m)), v) == Accepts(n, root, Obj(m), v)
  {
    MarkerIgnored(n, Widen(root), m, v);
    StrictSame(n, Widen(root), root, false, Obj(m), v);
  }

  /** A document marked as a whole means what it meant, references included: its definitions are
      under the marker too. */
  lemma MarkedDocumentKeepsMeaning(n: nat, root: Json, v: Json)
    requires root.Obj? && NO_WIDENING in root.fields
    ensures Accepts(n, Widen(root), Widen(root), v) == Accepts(n, root, root, v)
  {
    assert SameDefinitions(Widen(root), root);
    MarkerIgnored(n, Widen(root), root.fields, v);
    StrictSame(n, Widen(root), root, false, root, v);
  }

  // ---- Branches of a `oneOf` that stay apart ----

  /** Two type names no value has both of, even where strings are read from scalars. */
  predicate TypesApart(s: string, t: string)
  {
    && s != t
    && !({s, t} <= {"number", "integer"})
    && (s == "string" ==> t !in {"number", "integer", "boolean"})
    && (t == "string" ==> s !in {"number", "integer", "boolean"})
  }

  /** The constant a schema pins its value to, if it has one. */
  predicate Pinned(j: Json)
  {
    j.Obj? && "const" in j.fields
  }

  predicate Tag(j: Json, p: string)
  {
    && j.Obj? && "type" in j.fields && j.fields["type"] == Str("object")
    && "required" in j.fields && j.fields["required"].Arr? && Str(p) in j.fields["required"].items
    && p in Properties(j.fields) && Pinned(Properties(j.fields)[p])
  }

  function TagOf(j: Json, p: string): Json
    requires Tag(j, p)
  {
    Properties(j.fields)[p].fields["const"]
  }

  predicate TaggedApart(a: Json, b: Json, p: string)
  {
    Tag(a, p) && Tag(b, p) && TagOf(a, p) != TagOf(b, p)
  }

  /** Branches told apart by different constants, by different constants of a required property,
      or by their types: the forms the scenario schema uses. */
  ghost predicate Apart(a: Json, b: Json)
  {
    || (Pinned(a) && Pinned(b) && a.fields["const"] != b.fields["const"])
    || (exists p :: TaggedApart(a, b, p))
    || (a.Obj? && b.Obj? && "type" in a.fields && "type" in b.fields && a.fields["type"].Str? && b.fields["type"].Str?
        && TypesApart(a.fields["type"].s, b.fields["type"].s))
  }

  lemma {:induction false} TagRead(n: nat, root: Json, a: Json, p: string, v: Json, c: bool, l: bool)
    requires Tag(a, p) && Eval(n, root, a, v, c, l)
    ensures v.Obj? && p in v.fields && v.fields[p] == TagOf(a, p)
  {
    var m := a.fields;
    var d := c && NO_WIDENING !in m;
    assert v.Obj? by {
      assert TypeOk(m, v, d) && m["type"] != Str("string");
    }
    assert p in v.fields by {
      assert ValuesOk(m, v) && Str(p) in m["required"].items;
    }
    assert Eval(n - 1, root, Properties(m)[p], v.fields[p], d, l) by {
      assert Children(n, root, m, v, d, l);
    }
  }

  lemma {:induction false} ApartExcludes(n: nat, root: Json, a: Json, b: Json, v: Json, c: bool, l: bool)
    requires Apart(a, b)
    ensures !Eval(n, root, a, v, c, l) || !Eval(n, root, b, v, c, l)
  {
    if Eval(n, root, a, v, c, l) && Eval(n, root, b, v, c, l) {
      if p :| TaggedApart(a, b, p) {
        TagRead(n, root, a, p, v, c, l);
        TagRead(n, root, b, p, v, c, l);
      }
    }
  }

  ghost predicate BranchesApart(branches: seq<Json>)
  {
    forall i, j :: 0 <= i < j < |branches| ==> Apart(branches[i], branches[j])
  }

  lemma {:induction false} OthersMiss(n: nat, root: Json, others: seq<Json>, last: Json, v: Json, c: bool, l: bool)
    requires n > 0 && Eval(n - 1, root, last, v, c, l) && forall i :: 0 <= i < |others| ==> Apart(others[i], last)
    ensures Matches(n, root, others, v, c, l) == 0
    decreases |others|
  {
    if others != [] {
      var k := |others| - 1;
      OthersMiss(n, root, others[..k], last, v, c, l);
      ApartExcludes(n - 1, root, others[k], last, v, c, l);
    }
  }

  lemma {:induction false} AtMostOneMatches(n: nat, root: Json, branches: seq<Json>, v: Json, c: bool, l: bool)
    requires n > 0 && BranchesApart(branches)
    ensures Matches(n, root, branches, v, c, l) <= 1
    decreases |branches|
  {
    if branches != [] {
      var k := |branches| - 1;
      AtMostOneMatches(n, root, branches[..k], v, c, l);
      if Eval(n - 1, root, branches[k], v, c, l) {
        OthersMiss(n, root, branches[..k], branches[k], v, c, l);
      }
    }
  }

  // ---- What was valid stays valid, and its strings may lose their quotes ----

  /** Every `oneOf` in the schema has branches that stay apart. */
  ghost predicate Disjoint(j: Json)
  {
    match j
    case Obj(m) =>
      && ("oneOf" in m && m["oneOf"].Arr? ==> BranchesApart(m["oneOf"].items))
      && (forall k :: k in {"additionalProperties", "items"} && k in m ==> Disjoint(m[k]))
      && (forall k :: k in COMBINATORS && k in m && m[k].Arr? ==>
            forall i :: 0 <= i < |m[k].items| ==> Disjoint(m[k].items[i]))
      && (forall k :: k in {"properties", "$defs"} && k in m && m[k].Obj? ==>
            forall p :: p in m[k].fields ==> Disjoint(m[k].fields[p]))
    case _ => true
  }

  /** `w` is `v` with some strings, anywhere inside, replaced by numbers or booleans. */
  predicate Unquotes(v: Json, w: Json)
  {
    match v
    case Str(_) => w == v || w.Num? || w.Bool?
    case Arr(xs) => w.Arr? && |w.items| == |xs| && forall i :: 0 <= i < |xs| ==> Unquotes(xs[i], w.items[i])
    case Obj(m) => w.Obj? && w.fields.Keys == m.Keys && forall k :: k in m ==> Unquotes(m[k], w.fields[k])
    case _ => w == v
  }

  /** ... and only at open positions: no schema that accepts a changed part closes it with `enum` or
      `const` or carries the marker. */
  predicate Relaxed(n: nat, root: Json, schema: Json, v: Json, w: Json)
    decreases n, 1
  {
    || v == w
    || (&& Unquotes(v, w)
        && (schema.Obj? && n > 0 ==>
              && "enum" !in schema.fields && "const" !in schema.fields && NO_WIDENING !in schema.fields
              && ("$ref" in schema.fields ==> Relaxed(n - 1, root, Resolve(root, schema.fields["$ref"]), v, w))
              && (forall key :: key in COMBINATORS && key in schema.fields && schema.fields[key].Arr? ==>
                    RelaxedAll(n, root, schema.fields[key].items, v, w))
              && RelaxedChildren(n, root, schema.fields, v, w)))
  }

  predicate RelaxedAll(n: nat, root: Json, branches: seq<Json>, v: Json, w: Json)
    requires n > 0
    decreases n, 0
  {
    forall i :: 0 <= i < |branches| && Accepts(n - 1, root, branches[i], v) ==> Relaxed(n - 1, root, branches[i], v, w)
  }

  predicate RelaxedChildren(n: nat, root: Json, m: map<string, Json>, v: Json, w: Json)
    requires n > 0 && Unquotes(v, w)
    decreases n, 0
  {
    && (v.Obj? ==> forall k :: k in v.fields ==>
                     && (k in Properties(m) ==> Relaxed(n - 1, root, Properties(m)[k], v.fields[k], w.fields[k]))
                     && (k !in Properties(m) && "additionalProperties" in m ==>
                           Relaxed(n - 1, root, m["additionalProperties"], v.fields[k], w.fields[k])))
    && (v.Arr? && "items" in m ==>
          forall i :: 0 <= i < |v.items| ==> Relaxed(n - 1, root, m["items"], v.items[i], w.items[i]))
  }

  lemma TypeGrows(m: map<string, Json>, v: Json, w: Json, c: bool)
    requires Unquotes(v, w) && (v != w ==> c && "enum" !in m && "const" !in m) && TypeOk(m, v, false)
    ensures TypeOk(m, w, c)
  {
    if "type" in m && v != w && v.Str? {
      if m["type"].Arr? && AdmitsType(m["type"], v) {
        var i :| 0 <= i < |m["type"].items| && m["type"].items[i].Str? && HasType(m["type"].items[i].s, v);
        assert m["type"].items[i] == Str("string");
      }
    }
  }

  lemma ValuesGrow(m: map<string, Json>, v: Json, w: Json)
    requires Unquotes(v, w) && (v != w ==> "enum" !in m && "const" !in m) && ValuesOk(m, v)
    ensures ValuesOk(m, w)
  {
    if w.Obj? {
      assert w.fields.Keys == v.fields.Keys;
    }
  }

  lemma {:induction false} UnquotesSame(v: Json)
    ensures Unquotes(v, v)
  {
    match v
    case Arr(xs) => forall i | 0 <= i < |xs| { UnquotesSame(xs[i]); }
    case Obj(m) => forall k | k in m { UnquotesSame(m[k]); }
    case _ =>
  }

  /** Whatever `v` satisfies, its relaxed form does under a lenient reading that coerces wherever
      the value changed. */
  lemma {:induction false} Grows(n: nat, root: Json, schema: Json, v: Json, w: Json, c: bool)
    requires Disjoint(root) && Disjoint(schema) && Relaxed(n, root, schema, v, w) && (v != w ==> c)
    requires Accepts(n, root, schema, v)
    ensures Eval(n, root, schema, w, c, true)
    decreases n, 3, 0
  {
    if schema.Obj? {
      var m := schema.fields;
      var d := c && NO_WIDENING !in m;
      OwnGrows(n, root, m, v, w, d);
      InPlaceGrows(n, root, m, v, w, d);
      ChildrenGrow(n, root, m, v, w, d);
    }
  }

  lemma {:induction false} OwnGrows(n: nat, root: Json, m: map<string, Json>, v: Json, w: Json, c: bool)
    requires n > 0 && Relaxed(n, root, Obj(m), v, w) && (v != w ==> c)
    requires TypeOk(m, v, false) && ValuesOk(m, v)
    ensures TypeOk(m, w, c) && ValuesOk(m, w) && Unquotes(v, w)
  {
    UnquotesSame(v);
    TypeGrows(m, v, w, c);
    ValuesGrow(m, v, w);
  }

  lemma {:induction false} InPlaceGrows(n: nat, root: Json, m: map<string, Json>, v: Json, w: Json, c: bool)
    requires n > 0 && Disjoint(root) && Disjoint(Obj(m)) && Relaxed(n, root, Obj(m), v, w) && (v != w ==> c)
    requires InPlace(n, root, m, v, false, false)
    ensures InPlace(n, root, m, w, c, true)
    decreases n, 2, 1
  {
    RefGrows(n, root, m, v, w);
    CombinedGrows(n, root, m, "allOf", v, w, c);
    CombinedGrows(n, root, m, "anyOf", v, w, c);
    CombinedGrows(n, root, m, "oneOf", v, w, c);
  }

  lemma {:induction false} RefGrows(n: nat, root: Json, m: map<string, Json>, v: Json, w: Json)
    requires n > 0 && Disjoint(root) && RefOk(n, root, m, v, false) && Relaxed(n, root, Obj(m), v, w)
    ensures RefOk(n, root, m, w, true)
    decreases n, 2, 0
  {
    if "$ref" in m {
      Grows(n - 1, root, Resolve(root, m["$ref"]), v, w, true);
    }
  }

  lemma {:induction false} CombinedGrows(n: nat, root: Json, m: map<string, Json>, key: string, v: Json, w: Json,
                                         c: bool)
    requires n > 0 && Disjoint(root) && Disjoint(Obj(m)) && key in COMBINATORS && Relaxed(n, root, Obj(m), v, w)
    requires (v != w ==> c) && Combined(n, root, m, key, v, false, false)
    ensures Combined(n, root, m, key, w, c, true)
    decreases n, 2, 0
  {
    if key in m {
      assert RelaxedAll(n, root, m[key].items, v, w);
      MatchesGrow(n, root, m[key].items, v, w, c);
      if key == "oneOf" {
        AtMostOneMatches(n, root, m[key].items, w, c, true);
      }
    }
  }

  lemma {:induction false} MatchesGrow(n: nat, root: Json, branches: seq<Json>, v: Json, w: Json, c: bool)
    requires n > 0 && Disjoint(root) && (v != w ==> c) && RelaxedAll(n, root, branches, v, w)
    requires forall i :: 0 <= i < |branches| ==> Disjoint(branches[i])
    ensures Matches(n, root, branches, v, false, false) <= Matches(n, root, branches, w, c, true)
    decreases n, 1, |branches|
  {
    if branches != [] {
      var last := branches[|branches| - 1];
      MatchesGrow(n, root, branches[..|branches| - 1], v, w, c);
      if Accepts(n - 1, root, last, v) {
        Grows(n - 1, root, last, v, w, c);
      }
    }
  }

  lemma {:induction false} ChildrenGrow(n: nat, root: Json, m: map<string, Json>, v: Json, w: Json, c: bool)
    requires n > 0 && Disjoint(root) && Disjoint(Obj(m)) && Relaxed(n, root, Obj(m), v, w) && Unquotes(v, w)
    requires (v != w ==> c) && Children(n, root, m, v, false, false)
    ensures Children(n, root, m, w, c, true)
    decreases n, 2, 1
  {
    if w.Obj? && v.Obj? {
      FieldsGrow(n, root, m, v, w, c);
    }
    if w.Arr? && v.Arr? && "items" in m {
      forall i | 0 <= i < |w.items| ensures Eval(n - 1, root, m["items"], w.items[i], c, true) {
        Grows(n - 1, root, m["items"], v.items[i], w.items[i], c);
      }
    }
  }

  lemma {:induction false} FieldsGrow(n: nat, root: Json, m: map<string, Json>, v: Json, w: Json, c: bool)
    requires n > 0 && Disjoint(root) && Disjoint(Obj(m)) && Relaxed(n, root, Obj(m), v, w) && Unquotes(v, w)
    requires v.Obj? && w.Obj? && (v != w ==> c) && Children(n, root, m, v, false, false)
    ensures Children(n, root, m, w, c, true)
    decreases n, 2, 0
  {
    forall k | k in w.fields && k in Properties(m) ensures Eval(n - 1, root, Properties(m)[k], w.fields[k], c, true) {
      Grows(n - 1, root, Properties(m)[k], v.fields[k], w.fields[k], c);
    }
    if "additionalProperties" in m {
      forall k | k in w.fields && k !in Properties(m)
        ensures Eval(n - 1, root, m["additionalProperties"], w.fields[k], c, true)
      {
        Grows(n - 1, root, m["additionalProperties"], v.fields[k], w.fields[k], c);
      }
    }
  }

  /** To every depth: widening a document whose `oneOf`s are disjoint keeps an accepted value accepted,
      and that value with strings at open positions written as bare numbers or booleans. */
  lemma WideningKeepsAccepted(n: nat, root: Json, v: Json, w: Json)
    requires Document(root) && Disjoint(root) && Accepts(n, root, root, v) && Relaxed(n, root, root, v, w)
    ensures Accepts(n, Widen(root), Widen(root), v) && Accepts(n, Widen(root), Widen(root), w)
  {
    Grows(n, root, root, v, v, true);
    Grows(n, root, root, v, w, true);
    Exact(n, root, root, v);
    Exact(n, root, root, w);
  }

  // ---- Validity, at whatever depth it takes ----

  /** Accepted at every depth from `d` on. */
  ghost predicate ValidFrom(d: nat, root: Json, schema: Json, v: Json)
  {
    forall n: nat :: n >= d ==> Accepts(n, root, schema, v)
  }

  ghost predicate Valid(root: Json, schema: Json, v: Json)
  {
    exists d: nat :: ValidFrom(d, root, schema, v)
  }

  ghost predicate ReadableFrom(d: nat, root: Json, schema: Json, v: Json)
  {
    forall n: nat :: n >= d ==> Reads(n, root, schema, v)
  }

  ghost predicate Readable(root: Json, schema: Json, v: Json)
  {
    exists d: nat :: ReadableFrom(d, root, schema, v)
  }

  ghost predicate RelaxedFrom(d: nat, root: Json, v: Json, w: Json)
  {
    forall n: nat :: n >= d ==> Relaxed(n, root, root, v, w)
  }

  /** A value is valid against the widened document exactly when the reader takes it against the
      original one. */
  lemma ExactlyWhatTheReaderTakes(root: Json, schema: Json, v: Json)
    requires Document(root) && WellFormed(schema)
    ensures Valid(Widen(root), Widen(schema), v) <==> Readable(root, schema, v)
  {
    forall n: nat ensures Accepts(n, Widen(root), Widen(schema), v) == Reads(n, root, schema, v) {
      Exact(n, root, schema, v);
    }
    if d: nat :| ValidFrom(d, Widen(root), Widen(schema), v) {
      assert ReadableFrom(d, root, schema, v);
    }
    if d: nat :| ReadableFrom(d, root, schema, v) {
      assert ValidFrom(d, Widen(root), Widen(schema), v);
    }
  }

  /** So every valid value stays valid, and so does it with those strings written bare. */
  lemma WideningKeepsValid(root: Json, v: Json, w: Json, d: nat)
    requires Document(root) && Disjoint(root) && Valid(root, root, v) && RelaxedFrom(d, root, v, w)
    ensures Valid(Widen(root), Widen(root), v) && Valid(Widen(root), Widen(root), w)
  {
    var e: nat :| ValidFrom(e, root, root, v);
    var f := if d > e then d else e;
    forall n: nat | n >= f ensures Accepts(n, Widen(root), Widen(root), v) && Accepts(n, Widen(root), Widen(root), w) {
      WideningKeepsAccepted(n, root, v, w);
    }
    assert ValidFrom(f, Widen(root), Widen(root), v) && ValidFrom(f, Widen(root), Widen(root), w);
  }

  // ---- Where those promises end ----

  const TEXT := Obj(map["type" := Str("string")])
  const NUMBER := Obj(map["type" := Str("number")])
  const EITHER := Obj(map["oneOf" := Arr([TEXT, NUMBER])])

  /** An object schema with no other keyword than `type` and `oneOf`. */
  lemma OnlyTypeOrOneOf(n: nat, root: Json, m: map<string, Json>, v: Json, c: bool)
    requires n > 0 && m.Keys <= {"type", "oneOf"}
    ensures Eval(n, root, Obj(m), v, c, c) == (TypeOk(m, v, c) && Combined(n, root, m, "oneOf", v, c, c))
  {
    assert NO_WIDENING !in m && "enum" !in m && "const" !in m && "required" !in m && "$ref" !in m;
    assert "allOf" !in m && "anyOf" !in m && "properties" !in m && "additionalProperties" !in m && "items" !in m;
    assert InPlace(n, root, m, v, c, c) == Combined(n, root, m, "oneOf", v, c, c);
    assert Children(n, root, m, v, c, c);
  }

  lemma TypeAlone(n: nat, root: Json, m: map<string, Json>, v: Json, c: bool)
    requires n > 0 && m.Keys == {"type"}
    ensures Eval(n, root, Obj(m), v, c, c) == TypeOk(m, v, c)
  {
    OnlyTypeOrOneOf(n, root, m, v, c);
  }

  lemma OneOfTwo(n: nat, root: Json, m: map<string, Json>, a: Json, b: Json, v: Json, c: bool)
    requires n > 0 && m.Keys == {"oneOf"} && m["oneOf"] == Arr([a, b])
    ensures Eval(n, root, Obj(m), v, c, c) == (Eval(n - 1, root, a, v, c, c) != Eval(n - 1, root, b, v, c, c))
  {
    OnlyTypeOrOneOf(n, root, m, v, c);
    TwoMatches(n, root, a, b, v, c);
    assert Combined(n, root, m, "oneOf", v, c, c) == (Eval(n - 1, root, a, v, c, c) != Eval(n - 1, root, b, v, c, c));
  }

  lemma {:induction false} MatchesSnoc(n: nat, root: Json, branches: seq<Json>, b: Json, v: Json, c: bool)
    requires n > 0
    ensures Matches(n, root, branches + [b], v, c, c) ==
            Matches(n, root, branches, v, c, c) + if Eval(n - 1, root, b, v, c, c) then 1 else 0
  {
    assert (branches + [b])[..|branches|] == branches;
  }

  lemma {:induction false} TwoMatches(n: nat, root: Json, a: Json, b: Json, v: Json, c: bool)
    requires n > 0
    ensures Matches(n, root, [a, b], v, c, c) ==
            (if Eval(n - 1, root, a, v, c, c) then 1 else 0) + (if Eval(n - 1, root, b, v, c, c) then 1 else 0)
  {
    MatchesSnoc(n, root, [], a, v, c);
    MatchesSnoc(n, root, [a], b, v, c);
    assert [] + [a] == [a] && [a] + [b] == [a, b];
  }

  lemma EitherIsADocument()
    ensures Document(EITHER)
  {
    assert EITHER.fields["oneOf"].items == [TEXT, NUMBER];
    assert WellFormed(TEXT) && WellFormed(NUMBER);
  }

  /** `oneOf` over a string and a number takes every number before widening and none after: both
      branches then match it. */
  lemma OneOfCanReject(n: nat, x: real)
    requires n > 1
    ensures Document(EITHER) && Accepts(n, EITHER, EITHER, Num(x)) && !Accepts(n, Widen(EITHER), Widen(EITHER), Num(x))
  {
    EitherIsADocument();
    EitherTakes(n, x, false);
    EitherTakes(n, x, true);
    Exact(n, EITHER, EITHER, Num(x));
  }

  lemma EitherTakes(n: nat, x: real, c: bool)
    requires n > 1
    ensures Eval(n, EITHER, EITHER, Num(x), c, c) == !c
  {
    OneOfTwo(n, EITHER, EITHER.fields, TEXT, NUMBER, Num(x), c);
    TypeAlone(n - 1, EITHER, TEXT.fields, Num(x), c);
    TypeAlone(n - 1, EITHER, NUMBER.fields, Num(x), c);
    assert "enum" !in TEXT.fields && "const" !in TEXT.fields;
  }

  lemma NoCombinators(n: nat, root: Json, m: map<string, Json>, v: Json, c: bool, l: bool)
    requires n > 0 && "allOf" !in m && "anyOf" !in m && "oneOf" !in m
    ensures InPlace(n, root, m, v, c, l) == RefOk(n, root, m, v, l)
  {
    assert Combined(n, root, m, "allOf", v, c, l) && Combined(n, root, m, "anyOf", v, c, l);
    assert Combined(n, root, m, "oneOf", v, c, l);
  }

  lemma ConstAlone(n: nat, root: Json, m: map<string, Json>, v: Json)
    requires n > 0 && m.Keys == {"const"}
    ensures Accepts(n, root, Obj(m), v) <==> v == m["const"]
  {
    assert "type" !in m && "enum" !in m && "required" !in m && "$ref" !in m && "allOf" !in m && "anyOf" !in m;
    assert "oneOf" !in m && "properties" !in m && "additionalProperties" !in m && "items" !in m;
    NoCombinators(n, root, m, v, false, false);
    assert RefOk(n, root, m, v, false) && Children(n, root, m, v, false, false);
  }

  function Pin(c: Json): Json
  {
    Obj(map["const" := c])
  }

  /** A document that names one value goes on accepting it exactly when the value is stable. */
  lemma ConstantKeptExactly(n: nat, c: Json)
    requires n > 0
    ensures Accepts(n, Pin(c), Pin(c), c) && (Accepts(n, Widen(Pin(c)), Widen(Pin(c)), c) <==> Stable(c))
  {
    FixedExactly(c);
    ConstAlone(n, Pin(c), Pin(c).fields, c);
    WidenPin(c);
    ConstAlone(n, Widen(Pin(c)), Widen(Pin(c)).fields, c);
  }

  lemma WidenPin(c: Json)
    ensures Widen(Pin(c)) == Pin(Widen(c))
  {
    var m := Pin(c).fields;
    assert NO_WIDENING !in m && "const" in m;
    assert Widen(Pin(c)).fields == map["const" := Widen(c)];
  }

  /** So one that looks like a schema of strings is lost. */
  lemma ConstantCanChange(n: nat)
    requires n > 0
    ensures Accepts(n, Pin(TEXT), Pin(TEXT), TEXT) && !Accepts(n, Widen(Pin(TEXT)), Widen(Pin(TEXT)), TEXT)
  {
    ConstantKeptExactly(n, TEXT);
    var m := TEXT.fields;
    assert "enum" !in m && "const" !in m && Widens(m["type"]);
  }

  // ---- A marked reference ----

  const TO_TEXT := Obj(map["$ref" := Str("#/$defs/t"), NO_WIDENING := Bool(true)])
  const LISTED := Obj(map["$defs" := Obj(map["t" := TEXT]), "items" := TO_TEXT])

  lemma ListedIsADocument()
    ensures Document(LISTED)
  {
    var m := LISTED.fields;
    assert m["$defs"].fields == map["t" := TEXT] && m["items"] == TO_TEXT;
    TextIsASchema();
    assert NO_WIDENING in TO_TEXT.fields;
    ListedShape(m);
  }

  lemma TextIsASchema()
    ensures WellFormed(TEXT)
  {
  }

  lemma ListedShape(m: map<string, Json>)
    requires m.Keys == {"$defs", "items"} && WellFormed(m["items"])
    requires m["$defs"].Obj? && NO_WIDENING !in m["$defs"].fields
    requires forall p :: p in m["$defs"].fields ==> WellFormed(m["$defs"].fields[p])
    ensures Document(Obj(m))
  {
    assert NO_WIDENING !in m && "type" !in m && "enum" !in m && "const" !in m && "required" !in m && "$ref" !in m;
    assert "allOf" !in m && "anyOf" !in m && "oneOf" !in m && "properties" !in m && "additionalProperties" !in m;
  }

  lemma RefAlone(n: nat, root: Json, m: map<string, Json>, v: Json, l: bool)
    requires n > 0 && m.Keys == {"$ref", NO_WIDENING}
    ensures Eval(n, root, Obj(m), v, false, l) == Eval(n - 1, root, Resolve(root, m["$ref"]), v, l, l)
  {
    assert "type" !in m && "enum" !in m && "const" !in m && "required" !in m && "allOf" !in m && "anyOf" !in m;
    assert "oneOf" !in m && "properties" !in m && "additionalProperties" !in m && "items" !in m;
    assert InPlace(n, root, m, v, false, l) == RefOk(n, root, m, v, l) && Children(n, root, m, v, false, l);
  }

  lemma ResolveText()
    ensures Resolve(LISTED, Str("#/$defs/t")) == TEXT
  {
    var ref := "#/$defs/t";
    assert ref == DEFS + "t";
    assert ref[|DEFS|..] == "t";
  }

  lemma ItemsAlone(n: nat, root: Json, m: map<string, Json>, v: Json, c: bool)
    requires n > 0 && m.Keys == {"$defs", "items"}
    ensures Eval(n, root, Obj(m), Arr([v]), c, c) == Eval(n - 1, root, m["items"], v, c, c)
  {
    assert "type" !in m && "enum" !in m && "const" !in m && "required" !in m && "allOf" !in m && "anyOf" !in m;
    assert "oneOf" !in m && "properties" !in m && "additionalProperties" !in m && "$ref" !in m && NO_WIDENING !in m;
    NoCombinators(n, root, m, Arr([v]), c, c);
    assert Arr([v]).items[0] == v;
    assert Children(n, root, m, Arr([v]), c, c) == Eval(n - 1, root, m["items"], v, c, c);
  }

  /** The marked reference of this document takes no number before widening and every number after:
      the marker protects the reference and not the definition it names. */
  lemma MarkedReferenceCanChange(n: nat, x: real)
    requires n > 1
    ensures Document(LISTED) && NO_WIDENING in TO_TEXT.fields
    ensures !Accepts(n, LISTED, TO_TEXT, Num(x)) && Accepts(n, Widen(LISTED), Widen(TO_TEXT), Num(x))
    ensures !Accepts(n + 1, LISTED, LISTED, Arr([Num(x)])) &&
            Accepts(n + 1, Widen(LISTED), Widen(LISTED), Arr([Num(x)]))
  {
    ListedIsADocument();
    ResolveText();
    RefAlone(n, LISTED, TO_TEXT.fields, Num(x), false);
    RefAlone(n, LISTED, TO_TEXT.fields, Num(x), true);
    TypeAlone(n - 1, LISTED, TEXT.fields, Num(x), false);
    TypeAlone(n - 1, LISTED, TEXT.fields, Num(x), true);
    assert "enum" !in TEXT.fields && "const" !in TEXT.fields;
    MarkedExactly(n, LISTED, TO_TEXT.fields, Num(x));
    ListTakes(n, x);
  }

  lemma ListTakes(n: nat, x: real)
    requires Document(LISTED)
    ensures Accepts(n + 1, LISTED, LISTED, Arr([Num(x)])) == Accepts(n, LISTED, TO_TEXT, Num(x))
    ensures Accepts(n + 1, Widen(LISTED), Widen(LISTED), Arr([Num(x)])) == Reads(n, LISTED, TO_TEXT, Num(x))
  {
    ItemsAlone(n + 1, LISTED, LISTED.fields, Num(x), false);
    ItemsAlone(n + 1, LISTED, LISTED.fields, Num(x), true);
    Exact(n + 1, LISTED, LISTED, Arr([Num(x)]));
  }

  // ---- The marker as a name ----

  const NAMED := Obj(map["properties" := Obj(map[NO_WIDENING := Bool(true)]), "additionalProperties" := Bool(false)])

  lemma FieldsAlone(n: nat, root: Json, m: map<string, Json>, v: Json)
    requires n > 0 && m.Keys == {"properties", "additionalProperties"} && v.Obj?
    ensures Accepts(n, root, Obj(m), v) == Children(n, root, m, v, false, false)
  {
    assert "type" !in m && "enum" !in m && "const" !in m && "required" !in m && "allOf" !in m && "anyOf" !in m;
    assert "oneOf" !in m && "items" !in m && "$ref" !in m;
    NoCombinators(n, root, m, v, false, false);
  }

  lemma WidenNamed()
    ensures Widen(NAMED) == Obj(map["properties" := Obj(map[]), "additionalProperties" := Bool(false)])
  {
    var m := NAMED.fields;
    assert NO_WIDENING !in m;
    assert map[NO_WIDENING := Bool(true)] - {NO_WIDENING} == map[];
    assert Widen(m["properties"]) == Obj(map[]);
    assert Widen(NAMED).fields == map["properties" := Obj(map[]), "additionalProperties" := Bool(false)];
  }

  /** A document with a property named like the marker, and no constant and no `oneOf`, takes an object
      with that property, whatever it holds, before widening and not after. */
  lemma MarkerAsNameCanReject(n: nat, x: Json)
    requires n > 0
    ensures var v := Obj(map[NO_WIDENING := x]);
            Accepts(n, NAMED, NAMED, v) && !Accepts(n, Widen(NAMED), Widen(NAMED), v)
  {
    var v := Obj(map[NO_WIDENING := x]);
    assert NO_WIDENING in v.fields;
    FieldsAlone(n, NAMED, NAMED.fields, v);
    assert Properties(NAMED.fields) == map[NO_WIDENING := Bool(true)];
    WidenNamed();
    var wide := Widen(NAMED);
    FieldsAlone(n, wide, wide.fields, v);
    assert Properties(wide.fields) == map[] && wide.fields["additionalProperties"] == Bool(false);
  }
}
