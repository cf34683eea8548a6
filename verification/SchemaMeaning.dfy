/** What a schema accepts, and that rewriting guards does not change it.

    oneOf is read as a union, as the generated TypeScript type does.  A reading of schemas says which
    keys a pattern matches, and what the keywords that apply no subschema assert of an instance. */
module SchemaMeaning {
  import opened Common
  import opened Json
  import opened SchemaExpand

  datatype Reading = Reading(asserts: (string, Json, Json) -> bool, matches: (string, string) -> bool)

  predicate HasKey(x: Json, key: string) { x.Obj? && exists f :: f in x.fields && f.key == key }

  /** Does an entry of properties, or of patternProperties, speak of this key? */
  predicate Covers(q: Reading, keyword: string, name: string, key: string) {
    if keyword == "patternProperties" then q.matches(name, key) else name == key
  }

  predicate Names(q: Reading, keyword: string, entries: Option<Json>, key: string) {
    entries.Some? && entries.value.Obj? && exists f :: f in entries.value.fields && Covers(q, keyword, f.key, key)
  }

  /** The keys an object schema declares, by name or by pattern. */
  predicate Declares(q: Reading, fields: seq<Field<Json>>, key: string) {
    || Names(q, "properties", Lookup(fields, "properties"), key)
    || Names(q, "patternProperties", Lookup(fields, "patternProperties"), key)
  }

  predicate MapsKeys(key: string) { key == "properties" || key == "patternProperties" }

  ghost predicate Accepts(q: Reading, s: Json, x: Json)
    decreases s, 2
  {
    match s
    case Bool(b) => b
    case Obj(fields) => forall f :: f in fields ==> Holds(q, s, f, x)
    case _ => false
  }

  /** One keyword of the object schema s. */
  ghost predicate Holds(q: Reading, s: Json, f: Field<Json>, x: Json)
    requires s.Obj? && f in s.fields
    decreases s, 1
  {
    if f.key == "additionalProperties" then OthersAccepted(q, s.fields, f.value, x)
    else if f.key == "if" then BranchHolds(q, s.fields, if Accepts(q, f.value, x) then "then" else "else", x)
    else HoldsAlone(q, f, x)
  }

  /** A keyword that asks nothing of its neighbours. */
  ghost predicate HoldsAlone(q: Reading, f: Field<Json>, x: Json)
    decreases f, 4
  {
    if MapsKeys(f.key) then PropertiesHold(q, f.key, f.value, x)
    else if f.key == "required" then RequiredHolds(f.value, x)
    else if f.key == "items" then x.Arr? ==> forall i :: 0 <= i < |x.items| ==> Accepts(q, f.value, x.items[i])
    else if f.key == "anyOf" || f.key == "oneOf" then AnyAccepts(q, f.value, x)
    else if f.key == "allOf" then AllAccept(q, f.value, x)
    else if f.key == "not" then !Accepts(q, f.value, x)
    else if f.key == "then" || f.key == "else" || f.key == "$defs" then true
    else q.asserts(f.key, f.value, x)
  }

  ghost predicate OthersAccepted(q: Reading, fields: seq<Field<Json>>, value: Json, x: Json)
    decreases value, 3
  {
    x.Obj? ==> forall g :: g in x.fields && !Declares(q, fields, g.key) ==> Accepts(q, value, g.value)
  }

  ghost predicate BranchHolds(q: Reading, fields: seq<Field<Json>>, key: string, x: Json)
    decreases fields, 0
  {
    var branch := Lookup(fields, key);
    branch.Some? ==> Accepts(q, branch.value, x)
  }

  predicate RequiredHolds(value: Json, x: Json) { x.Obj? ==> forall r :: r in StringsIn(value) ==> HasKey(x, r) }

  ghost predicate PropertiesHold(q: Reading, keyword: string, value: Json, x: Json)
    decreases value, 2
  {
    value.Obj? && x.Obj? ==>
      forall p, g :: p in value.fields && g in x.fields && Covers(q, keyword, p.key, g.key) ==>
        Accepts(q, p.value, g.value)
  }

  ghost predicate AnyAccepts(q: Reading, value: Json, x: Json)
    decreases value, 2
  {
    value.Arr? && exists k :: 0 <= k < |value.items| && Accepts(q, value.items[k], x)
  }

  ghost predicate AllAccept(q: Reading, value: Json, x: Json)
    decreases value, 2
  {
    value.Arr? && forall k :: 0 <= k < |value.items| ==> Accepts(q, value.items[k], x)
  }

  // ---------------------------------------------------------------- the schemas concerned

  /** Reference-free, with schemas where schemas belong, no guarded object with both union keywords,
      and no data that expansion would mistake for a schema. */
  ghost predicate Simple(s: Json)
    decreases s, 2
  {
    match s
    case Bool(_) => true
    case Obj(fields) =>
      && OneUnion(fields) && DistinctKeys(fields) && forall f :: f in fields ==> SimpleField(f)
    case _ => false
  }

  predicate OneUnion(fields: seq<Field<Json>>) {
    GuardKey(fields).Some? ==> Lookup(fields, "anyOf").None? || Lookup(fields, "oneOf").None?
  }

  predicate AppliesSchema(key: string) {
    key == "additionalProperties" || key == "items" || key == "not" || key == "if" || key == "then" || key == "else"
  }

  ghost predicate SimpleField(f: Field<Json>)
    decreases f, 1
  {
    if MapsKeys(f.key) then SimpleProperties(f.value)
    else if f.key == "required" then StringArray(f.value)
    else if f.key == "anyOf" || f.key == "oneOf" || f.key == "allOf" then SimpleArray(f.value)
    else if AppliesSchema(f.key) then Simple(f.value)
    else f.key == "$defs" || (f.key != "$ref" && NoGuards(f.value))
  }

  /** An object schema that is simple but for its own union keywords. */
  ghost predicate SimpleParts(s: Json) {
    s.Obj? && DistinctKeys(s.fields) && forall f :: f in s.fields ==> SimpleField(f)
  }

  ghost predicate SimpleProperties(j: Json)
    decreases j, 2
  {
    j.Obj? && DistinctKeys(j.fields) && forall p :: p in j.fields ==> Simple(p.value)
  }

  ghost predicate SimpleArray(j: Json)
    decreases j, 2
  {
    j.Arr? && forall k :: 0 <= k < |j.items| ==> Simple(j.items[k])
  }

  // ---------------------------------------------------------------- keyword by keyword

  /** What a keyword can see of its neighbours. */
  predicate SameContext(s: seq<Field<Json>>, t: seq<Field<Json>>) {
    && Lookup(s, "properties") == Lookup(t, "properties")
    && Lookup(s, "patternProperties") == Lookup(t, "patternProperties")
    && Lookup(s, "then") == Lookup(t, "then") && Lookup(s, "else") == Lookup(t, "else")
  }

  lemma HoldsLocally(q: Reading, s: Json, t: Json, f: Field<Json>, x: Json)
    requires s.Obj? && t.Obj? && f in s.fields && f in t.fields && SameContext(s.fields, t.fields)
    ensures Holds(q, s, f, x) == Holds(q, t, f, x)
  {
  }

  lemma KeyIsUnique(fields: seq<Field<Json>>, f: Field<Json>)
    requires DistinctKeys(fields) && f in fields
    ensures Lookup(fields, f.key) == Some(f.value)
  {
    var r := Lookup(fields, f.key);
    var i :| 0 <= i < |fields| && fields[i] == f;
    var k :| 0 <= k < |fields| && fields[k] == Field(f.key, r.value);
  }

  // ---------------------------------------------------------------- expanding the guards of one object

  /** Required keys add up. */
  lemma {:induction false} StringItemsOf(values: seq<string>)
    ensures StringsIn(Strings(values)) == values
  {
    if values != [] {
      StringItemsOf(values[1..]);
      assert Strings(values).items[1..] == Strings(values[1..]).items;
    }
  }

  lemma VariantFields(fields: seq<Field<Json>>, guard: Json, f: Field<Json>)
    requires DistinctKeys(fields) && RequiredOnly(guard)
    ensures f in Variant(fields, guard).fields <==>
      f == Field("required", Strings(Unique(RequiredOf(fields) + RequiredOf(guard.fields))))
      || (f in fields && f.key != "required" && f.key != "anyOf" && f.key != "oneOf")
  {
    var base := Without(fields, "anyOf", "oneOf");
    WithoutDistinct(fields);
    WithExactly(base, "required", Strings(Unique(RequiredOf(fields) + RequiredOf(guard.fields))), f);
  }

  lemma {:induction false} WithoutDistinct(fields: seq<Field<Json>>)
    requires DistinctKeys(fields)
    ensures DistinctKeys(Without(fields, "anyOf", "oneOf"))
  {
    if fields != [] {
      WithoutDistinct(fields[1..]);
      var rest := Without(fields[1..], "anyOf", "oneOf");
      forall f | f in rest
        ensures f.key != fields[0].key
      {
        var i :| 0 <= i < |fields[1..]| && fields[1..][i] == f;
        assert fields[i + 1] == f;
      }
    }
  }

  lemma {:induction false} WithExactly(fields: seq<Field<Json>>, key: string, value: Json, f: Field<Json>)
    requires DistinctKeys(fields)
    ensures f in With(fields, key, value) <==> f == Field(key, value) || (f in fields && f.key != key)
  {
    if fields != [] {
      assert fields == [fields[0]] + fields[1..];
      if fields[0].key == key {
        if f in fields[1..] {
          var i :| 0 <= i < |fields[1..]| && fields[1..][i] == f;
          assert fields[i + 1] == f;
        }
      } else {
        WithExactly(fields[1..], key, value, f);
      }
    }
  }

  lemma VariantLookup(fields: seq<Field<Json>>, guard: Json, key: string)
    requires DistinctKeys(fields) && RequiredOnly(guard) && key !in {"required", "anyOf", "oneOf"}
    ensures Lookup(Variant(fields, guard).fields, key) == Lookup(fields, key)
  {
    var a, b := Lookup(Variant(fields, guard).fields, key), Lookup(fields, key);
    if a.Some? {
      VariantFields(fields, guard, Field(key, a.value));
      KeyIsUnique(fields, Field(key, a.value));
    } else if b.Some? {
      VariantFields(fields, guard, Field(key, b.value));
    }
  }

  lemma RequiredAddsUp(a: seq<string>, b: seq<string>, x: Json)
    ensures RequiredHolds(Strings(Unique(a + b)), x)
            <==> x.Obj? ==> (forall r :: r in a ==> HasKey(x, r)) && (forall r :: r in b ==> HasKey(x, r))
  {
    StringItemsOf(Unique(a + b));
    assert forall r :: r in a + b <==> r in a || r in b;
  }

  lemma GuardMeaning(q: Reading, guard: Json, x: Json)
    requires RequiredOnly(guard) && DistinctKeys(guard.fields)
    ensures Accepts(q, guard, x) <==> x.Obj? ==> forall r :: r in RequiredOf(guard.fields) ==> HasKey(x, r)
  {
    var f := Field("required", Lookup(guard.fields, "required").value);
    forall g | g in guard.fields
      ensures g == f
    {
      KeyIsUnique(guard.fields, g);
    }
    assert Holds(q, guard, f, x) <==> RequiredHolds(f.value, x);
  }

  /** Every keyword of the object but one. */
  ghost predicate OthersHold(q: Reading, fields: seq<Field<Json>>, key: string, x: Json) {
    forall f :: f in fields && f.key != key ==> Holds(q, Obj(fields), f, x)
  }

  lemma RequiredField(q: Reading, fields: seq<Field<Json>>, x: Json)
    requires DistinctKeys(fields)
    ensures (forall f :: f in fields && f.key == "required" ==> Holds(q, Obj(fields), f, x))
            <==> x.Obj? ==> forall r :: r in RequiredOf(fields) ==> HasKey(x, r)
  {
    forall f | f in fields && f.key == "required"
      ensures Lookup(fields, "required") == Some(f.value)
    {
      KeyIsUnique(fields, f);
    }
    var r := Lookup(fields, "required");
    if r.Some? { assert Holds(q, Obj(fields), Field("required", r.value), x) <==> RequiredHolds(r.value, x); }
  }

  /** Every keyword of the object but its guard and the required keys. */
  ghost predicate RestHolds(q: Reading, fields: seq<Field<Json>>, key: string, x: Json) {
    forall f :: f in fields && f.key != key && f.key != "required" ==> Holds(q, Obj(fields), f, x)
  }

  lemma VariantContext(fields: seq<Field<Json>>, guard: Json)
    requires DistinctKeys(fields) && RequiredOnly(guard)
    ensures SameContext(Variant(fields, guard).fields, fields)
  {
    VariantLookup(fields, guard, "properties");
    VariantLookup(fields, guard, "patternProperties");
    VariantLookup(fields, guard, "then");
    VariantLookup(fields, guard, "else");
  }

  lemma RequiredMeaning(q: Reading, s: Json, f: Field<Json>, x: Json)
    requires s.Obj? && f in s.fields && f.key == "required"
    ensures Holds(q, s, f, x) <==> RequiredHolds(f.value, x)
  {
  }

  lemma VariantFieldMeaning(q: Reading, fields: seq<Field<Json>>, guard: Json, f: Field<Json>, x: Json)
    requires DistinctKeys(fields) && RequiredOnly(guard) && f in fields
    requires f.key != "required" && f.key != "anyOf" && f.key != "oneOf"
    ensures f in Variant(fields, guard).fields
    ensures Holds(q, Variant(fields, guard), f, x) == Holds(q, Obj(fields), f, x)
  {
    VariantFields(fields, guard, f);
    VariantContext(fields, guard);
    HoldsLocally(q, Variant(fields, guard), Obj(fields), f, x);
  }

  lemma VariantSplits(q: Reading, fields: seq<Field<Json>>, key: string, guard: Json, x: Json)
    requires DistinctKeys(fields) && RequiredOnly(guard)
    requires (key == "anyOf" && Lookup(fields, "oneOf").None?) || (key == "oneOf" && Lookup(fields, "anyOf").None?)
    ensures Accepts(q, Variant(fields, guard), x)
            <==> RestHolds(q, fields, key, x)
                 && RequiredHolds(Strings(Unique(RequiredOf(fields) + RequiredOf(guard.fields))), x)
  {
    var v := Variant(fields, guard);
    var required := Field("required", Strings(Unique(RequiredOf(fields) + RequiredOf(guard.fields))));
    VariantFields(fields, guard, required);
    RequiredMeaning(q, v, required, x);
    if Accepts(q, v, x) {
      forall f | f in fields && f.key != key && f.key != "required"
        ensures Holds(q, Obj(fields), f, x)
      {
        VariantFieldMeaning(q, fields, guard, f, x);
      }
    }
    if RestHolds(q, fields, key, x) && RequiredHolds(required.value, x) {
      forall f | f in v.fields
        ensures Holds(q, v, f, x)
      {
        VariantFields(fields, guard, f);
        if f != required { VariantFieldMeaning(q, fields, guard, f, x); }
      }
    }
  }

  /** A variant demands what the object demands besides its guard, and one alternative of the guard. */
  lemma VariantMeaning(q: Reading, fields: seq<Field<Json>>, key: string, guard: Json, x: Json)
    requires DistinctKeys(fields) && RequiredOnly(guard) && DistinctKeys(guard.fields)
    requires (key == "anyOf" && Lookup(fields, "oneOf").None?) || (key == "oneOf" && Lookup(fields, "anyOf").None?)
    ensures Accepts(q, Variant(fields, guard), x) <==> OthersHold(q, fields, key, x) && Accepts(q, guard, x)
  {
    VariantSplits(q, fields, key, guard, x);
    RequiredAddsUp(RequiredOf(fields), RequiredOf(guard.fields), x);
    GuardMeaning(q, guard, x);
    RequiredField(q, fields, x);
    assert OthersHold(q, fields, key, x) <==>
      RestHolds(q, fields, key, x) && forall f :: f in fields && f.key == "required" ==> Holds(q, Obj(fields), f, x);
  }

  /** The alternatives of a guard are proper objects. */
  ghost predicate AlternativesDistinct(guard: Option<Json>) {
    IsGuard(guard) ==> forall k :: 0 <= k < |guard.value.items| ==> DistinctKeys(guard.value.items[k].fields)
  }

  lemma UnionMeaning(q: Reading, items: seq<Json>, variants: seq<Json>, others: bool, x: Json)
    requires |variants| == |items|
    requires forall k :: 0 <= k < |items| ==> (Accepts(q, variants[k], x) <==> others && Accepts(q, items[k], x))
    ensures AnyAccepts(q, Arr(variants), x) <==> others && AnyAccepts(q, Arr(items), x)
  {
  }

  lemma SplitOff(q: Reading, fields: seq<Field<Json>>, f: Field<Json>, x: Json)
    requires DistinctKeys(fields) && f in fields
    ensures Accepts(q, Obj(fields), x) <==> OthersHold(q, fields, f.key, x) && Holds(q, Obj(fields), f, x)
  {
    forall g | g in fields && g.key == f.key
      ensures g == f
    {
      KeyIsUnique(fields, f);
      KeyIsUnique(fields, g);
    }
  }

  lemma OnlyUnion(q: Reading, variants: seq<Json>, x: Json)
    ensures Accepts(q, Obj([Field("oneOf", Arr(variants))]), x) <==> AnyAccepts(q, Arr(variants), x)
  {
    var f := Field("oneOf", Arr(variants));
    assert Holds(q, Obj([f]), f, x) <==> AnyAccepts(q, f.value, x);
  }

  lemma VariantsMeaning(q: Reading, fields: seq<Field<Json>>, key: string, items: seq<Json>, x: Json)
    requires DistinctKeys(fields) && IsGuard(Some(Arr(items))) && AlternativesDistinct(Some(Arr(items)))
    requires (key == "anyOf" && Lookup(fields, "oneOf").None?) || (key == "oneOf" && Lookup(fields, "anyOf").None?)
    ensures AnyAccepts(q, Arr(Variants(fields, items)), x)
            <==> OthersHold(q, fields, key, x) && AnyAccepts(q, Arr(items), x)
  {
    var variants := Variants(fields, items);
    forall k | 0 <= k < |items|
      ensures Accepts(q, variants[k], x) <==> OthersHold(q, fields, key, x) && Accepts(q, items[k], x)
    {
      VariantMeaning(q, fields, key, items[k], x);
    }
    UnionMeaning(q, items, variants, OthersHold(q, fields, key, x), x);
  }

  lemma UnionForGuard(q: Reading, fields: seq<Field<Json>>, key: string, items: seq<Json>, x: Json)
    requires DistinctKeys(fields) && Lookup(fields, key) == Some(Arr(items))
    requires IsGuard(Some(Arr(items))) && AlternativesDistinct(Some(Arr(items)))
    requires (key == "anyOf" && Lookup(fields, "oneOf").None?) || (key == "oneOf" && Lookup(fields, "anyOf").None?)
    ensures Accepts(q, Obj([Field("oneOf", Arr(Variants(fields, items)))]), x) <==> Accepts(q, Obj(fields), x)
  {
    VariantsMeaning(q, fields, key, items, x);
    OnlyUnion(q, Variants(fields, items), x);
    SplitOff(q, fields, Field(key, Arr(items)), x);
  }

  /** Expanding the guard of one object. */
  lemma GuardedMeaning(q: Reading, fields: seq<Field<Json>>, x: Json)
    requires DistinctKeys(fields)
    requires AlternativesDistinct(Lookup(fields, "anyOf")) && AlternativesDistinct(Lookup(fields, "oneOf"))
    requires OneUnion(fields)
    ensures Accepts(q, Guarded(fields), x) <==> Accepts(q, Obj(fields), x)
  {
    var key := GuardKey(fields);
    if key.Some? { UnionForGuard(q, fields, key.value, Lookup(fields, key.value).value.items, x); }
  }

  // ---------------------------------------------------------------- expanding a whole schema

  lemma DistinctExpanded(fields: seq<Field<Json>>)
    requires DistinctKeys(fields)
    ensures DistinctKeys(ExpandFields(fields))
  {
  }

  lemma LookupExpanded(fields: seq<Field<Json>>, key: string)
    requires DistinctKeys(fields)
    ensures DistinctKeys(ExpandFields(fields))
    ensures Lookup(ExpandFields(fields), key)
            == if Lookup(fields, key).Some? then Some(Expand(Lookup(fields, key).value)) else None
  {
    DistinctExpanded(fields);
    LookupKept(fields, key);
  }

  lemma {:induction false} LookupKept(fields: seq<Field<Json>>, key: string)
    ensures Lookup(ExpandFields(fields), key)
            == if Lookup(fields, key).Some? then Some(Expand(Lookup(fields, key).value)) else None
  {
    if fields != [] {
      assert ExpandFields(fields)[1..] == ExpandFields(fields[1..]);
      LookupKept(fields[1..], key);
    }
  }

  /** A schema stays an object or a boolean, never a string. */
  lemma ExpandedKind(s: Json)
    requires Simple(s)
    ensures Expand(s).Obj? || Expand(s).Bool?
    ensures s.Obj? ==> DistinctKeys(Expand(s).fields)
  {
    if s.Obj? { LookupExpanded(s.fields, "type"); }
  }

  /** The map of properties is not mistaken for a schema, whatever the properties are called. */
  lemma PropertiesExpanded(j: Json)
    requires SimpleProperties(j)
    ensures Expand(j) == Obj(ExpandFields(j.fields))
  {
    LookupExpanded(j.fields, "type");
    var t := Lookup(j.fields, "type");
    if t.Some? {
      assert Field("type", t.value) in j.fields;
      ExpandedKind(t.value);
    }
  }

  lemma StringArrayStays(j: Json)
    requires StringArray(j)
    ensures Expand(j) == j
  {
    assert ExpandItems(j.items) == j.items;
  }

  lemma NamesKept(q: Reading, keyword: string, ps: seq<Field<Json>>, key: string)
    ensures Names(q, keyword, Some(Obj(ExpandFields(ps))), key) == Names(q, keyword, Some(Obj(ps)), key)
  {
    var out := ExpandFields(ps);
    assert forall i :: 0 <= i < |ps| ==> out[i].key == ps[i].key && out[i] in out && ps[i] in ps;
  }

  lemma NamesExpanded(q: Reading, fields: seq<Field<Json>>, keyword: string, key: string)
    requires DistinctKeys(fields) && (Lookup(fields, keyword).Some? ==> SimpleProperties(Lookup(fields, keyword).value))
    ensures Names(q, keyword, Lookup(ExpandFields(fields), keyword), key)
            == Names(q, keyword, Lookup(fields, keyword), key)
  {
    LookupExpanded(fields, keyword);
    var p := Lookup(fields, keyword);
    if p.Some? {
      PropertiesExpanded(p.value);
      NamesKept(q, keyword, p.value.fields, key);
    }
  }

  lemma KindKept(n: Json)
    ensures (Expand(n).Obj? <==> n.Obj?) && (Expand(n).Arr? <==> n.Arr?) && (!n.Obj? && !n.Arr? ==> Expand(n) == n)
  {
  }

  lemma TypedKept(fields: seq<Field<Json>>)
    requires DistinctKeys(fields)
    ensures TypedObject(ExpandFields(fields)) == TypedObject(fields)
  {
    var out, t, p := ExpandFields(fields), Lookup(fields, "type"), Lookup(fields, "properties");
    LookupExpanded(fields, "type");
    LookupExpanded(fields, "properties");
    if t.Some? { KindKept(t.value); }
    if p.Some? { KindKept(p.value); }
    assert Lookup(out, "type") == Some(Str("object")) <==> t == Some(Str("object"));
  }

  lemma StringArrayKept(j: Json)
    ensures StringArray(Expand(j)) == StringArray(j)
  {
    KindKept(j);
    if j.Arr? {
      forall i | 0 <= i < |j.items| { KindKept(j.items[i]); }
    }
  }

  lemma KeysKept(fields: seq<Field<Json>>)
    ensures var out := ExpandFields(fields);
      (forall f :: f in out ==> f.key == "required") <==> (forall f :: f in fields ==> f.key == "required")
  {
    var out := ExpandFields(fields);
    assert forall i :: 0 <= i < |out| ==> out[i].key == fields[i].key && out[i] in out && fields[i] in fields;
  }

  /** An object all of whose keys are required has no type. */
  lemma OnlyRequiredUntyped(fields: seq<Field<Json>>)
    requires forall f :: f in fields ==> f.key == "required"
    ensures GuardKey(fields).None?
  {
    assert Lookup(fields, "type").None?;
  }

  lemma RequiredOnlyKept(j: Json)
    requires j.Obj? ==> DistinctKeys(j.fields)
    ensures RequiredOnly(Expand(j)) == RequiredOnly(j)
  {
    KindKept(j);
    if j.Obj? {
      var out, r := ExpandFields(j.fields), Lookup(j.fields, "required");
      KeysKept(j.fields);
      LookupExpanded(j.fields, "required");
      if r.Some? { StringArrayKept(r.value); }
      if forall f :: f in out ==> f.key == "required" {
        OnlyRequiredUntyped(out);
      } else if GuardKey(out).Some? {
        assert Guarded(out).fields[0] in Guarded(out).fields && Guarded(out).fields[0].key == "oneOf";
      }
    }
  }

  /** The objects in an array have distinct keys, as JSON objects do. */
  ghost predicate ItemsDistinct(j: Json) {
    j.Arr? ==> forall k :: 0 <= k < |j.items| && j.items[k].Obj? ==> DistinctKeys(j.items[k].fields)
  }

  lemma IsGuardKept(j: Option<Json>)
    requires j.Some? ==> ItemsDistinct(j.value)
    ensures IsGuard(if j.Some? then Some(Expand(j.value)) else None) == IsGuard(j)
  {
    if j.Some? {
      KindKept(j.value);
      if j.value.Arr? {
        var items, out := j.value.items, Expand(j.value).items;
        forall k | 0 <= k < |items|
          ensures RequiredOnly(out[k]) == RequiredOnly(items[k])
        {
          RequiredOnlyKept(items[k]);
        }
      }
    }
  }

  ghost predicate SimpleUnions(fields: seq<Field<Json>>) {
    && (Lookup(fields, "anyOf").Some? ==> SimpleArray(Lookup(fields, "anyOf").value))
    && (Lookup(fields, "oneOf").Some? ==> SimpleArray(Lookup(fields, "oneOf").value))
  }

  ghost predicate DistinctUnions(fields: seq<Field<Json>>) {
    && (Lookup(fields, "anyOf").Some? ==> ItemsDistinct(Lookup(fields, "anyOf").value))
    && (Lookup(fields, "oneOf").Some? ==> ItemsDistinct(Lookup(fields, "oneOf").value))
  }

  lemma SimpleIsDistinct(fields: seq<Field<Json>>)
    requires SimpleUnions(fields)
    ensures DistinctUnions(fields)
  {
    var a, o := Lookup(fields, "anyOf"), Lookup(fields, "oneOf");
    if a.Some? { forall k | 0 <= k < |a.value.items| ensures Simple(a.value.items[k]) {} }
    if o.Some? { forall k | 0 <= k < |o.value.items| ensures Simple(o.value.items[k]) {} }
  }

  /** Whether an object is a guarded schema can be read off before its parts are expanded. */
  lemma GuardKeyKept(fields: seq<Field<Json>>)
    requires DistinctKeys(fields) && DistinctUnions(fields)
    ensures GuardKey(ExpandFields(fields)) == GuardKey(fields)
  {
    TypedKept(fields);
    LookupExpanded(fields, "anyOf");
    LookupExpanded(fields, "oneOf");
    IsGuardKept(Lookup(fields, "anyOf"));
    IsGuardKept(Lookup(fields, "oneOf"));
  }

  /** Rewriting keeps the meaning of every simple schema, at every depth. */
  lemma {:induction false} ExpandMeaning(q: Reading, s: Json, x: Json)
    requires Simple(s)
    ensures Accepts(q, Expand(s), x) <==> Accepts(q, s, x)
    decreases s, 4
  {
    if s.Obj? {
      ChildrenMeaning(q, s, x);
      UnionFields(s.fields);
      SimpleIsDistinct(s.fields);
      GuardKeyKept(s.fields);
      LookupExpanded(s.fields, "anyOf");
      LookupExpanded(s.fields, "oneOf");
      ExpandedGuards(s.fields);
      GuardedMeaning(q, ExpandFields(s.fields), x);
    }
  }

  /** Expanding the parts of an object schema keeps its meaning, whatever union keywords it has. */
  lemma {:induction false} ChildrenMeaning(q: Reading, s: Json, x: Json)
    requires SimpleParts(s)
    ensures Accepts(q, Obj(ExpandFields(s.fields)), x) <==> Accepts(q, s, x)
    decreases s, 3
  {
    var out := ExpandFields(s.fields);
    forall i | 0 <= i < |out|
      ensures Holds(q, Obj(out), out[i], x) == Holds(q, s, s.fields[i], x)
    {
      FieldMeaning(q, s, i, x);
    }
    SameAcceptance(q, s, Obj(out), x);
  }

  lemma SameAcceptance(q: Reading, s: Json, t: Json, x: Json)
    requires s.Obj? && t.Obj? && |s.fields| == |t.fields|
    requires forall i :: 0 <= i < |t.fields| ==> Holds(q, t, t.fields[i], x) == Holds(q, s, s.fields[i], x)
    ensures Accepts(q, s, x) <==> Accepts(q, t, x)
  {
  }

  lemma ExpandedGuards(fields: seq<Field<Json>>)
    requires DistinctKeys(fields) && SimpleUnions(fields)
    ensures AlternativesDistinct(Lookup(ExpandFields(fields), "anyOf"))
    ensures AlternativesDistinct(Lookup(ExpandFields(fields), "oneOf"))
  {
    LookupExpanded(fields, "anyOf");
    LookupExpanded(fields, "oneOf");
    if Lookup(fields, "anyOf").Some? { ExpandedAlternatives(Lookup(fields, "anyOf").value); }
    if Lookup(fields, "oneOf").Some? { ExpandedAlternatives(Lookup(fields, "oneOf").value); }
  }

  lemma ExpandedAlternatives(j: Json)
    requires SimpleArray(j)
    ensures AlternativesDistinct(Some(Expand(j)))
  {
    forall k | 0 <= k < |j.items| && Expand(j.items[k]).Obj?
      ensures DistinctKeys(Expand(j).items[k].fields)
    {
      ExpandedKind(j.items[k]);
    }
  }

  lemma UnionFields(fields: seq<Field<Json>>)
    requires SimpleParts(Obj(fields))
    ensures SimpleUnions(fields)
  {
    var a, o := Lookup(fields, "anyOf"), Lookup(fields, "oneOf");
    if a.Some? { assert SimpleField(Field("anyOf", a.value)); }
    if o.Some? { assert SimpleField(Field("oneOf", o.value)); }
  }

  lemma SchemaField(s: Json, key: string)
    requires SimpleParts(s) && AppliesSchema(key)
    ensures Lookup(s.fields, key).Some? ==> Simple(Lookup(s.fields, key).value)
  {
    var r := Lookup(s.fields, key);
    if r.Some? { assert SimpleField(Field(key, r.value)); }
  }

  /** One keyword, given that its subschemas keep their meaning. */
  lemma {:induction false} FieldMeaning(q: Reading, s: Json, i: nat, x: Json)
    requires SimpleParts(s) && i < |s.fields|
    ensures Holds(q, Obj(ExpandFields(s.fields)), ExpandFields(s.fields)[i], x) == Holds(q, s, s.fields[i], x)
    decreases s, 2
  {
    var f := s.fields[i];
    assert f in s.fields && SimpleField(f);
    if f.key == "additionalProperties" {
      assert f == Field("additionalProperties", f.value);
      ExtraMeaning(q, s, f.value, x);
    } else if f.key == "if" {
      ExpandMeaning(q, f.value, x);
      BranchMeaning(q, s, if Accepts(q, f.value, x) then "then" else "else", x);
    } else {
      AloneMeaning(q, f, x);
    }
  }

  /** A keyword that asks nothing of its neighbours. */
  lemma {:induction false} AloneMeaning(q: Reading, f: Field<Json>, x: Json)
    requires SimpleField(f) && f.key != "additionalProperties" && f.key != "if"
    ensures HoldsAlone(q, Field(f.key, Expand(f.value)), x) == HoldsAlone(q, f, x)
    decreases f, 5
  {
    if MapsKeys(f.key) {
      PropertiesMeaning(q, f.key, f.value, x);
    } else if f.key == "required" {
      StringArrayStays(f.value);
    } else if f.key == "items" {
      if x.Arr? { forall k | 0 <= k < |x.items| { ExpandMeaning(q, f.value, x.items[k]); } }
    } else if f.key == "anyOf" || f.key == "oneOf" || f.key == "allOf" {
      ArrayMeaning(q, f.value, x);
    } else if f.key == "not" {
      ExpandMeaning(q, f.value, x);
    } else if f.key != "then" && f.key != "else" && f.key != "$defs" {
      ExpandLeaves(f.value);
    }
  }

  lemma {:induction false} ArrayMeaning(q: Reading, j: Json, x: Json)
    requires SimpleArray(j)
    ensures AnyAccepts(q, Expand(j), x) == AnyAccepts(q, j, x) && AllAccept(q, Expand(j), x) == AllAccept(q, j, x)
    decreases j, 3
  {
    forall k | 0 <= k < |j.items|
      ensures Accepts(q, Expand(j).items[k], x) == Accepts(q, j.items[k], x)
    {
      ExpandMeaning(q, j.items[k], x);
    }
  }

  lemma {:induction false} PropertiesMeaning(q: Reading, keyword: string, j: Json, x: Json)
    requires SimpleProperties(j)
    ensures PropertiesHold(q, keyword, Expand(j), x) == PropertiesHold(q, keyword, j, x)
    decreases j, 3
  {
    PropertiesExpanded(j);
    if x.Obj? {
      forall i, g | 0 <= i < |j.fields| && g in x.fields
        ensures Accepts(q, Expand(j.fields[i].value), g.value) == Accepts(q, j.fields[i].value, g.value)
      {
        assert j.fields[i] in j.fields;
        ExpandMeaning(q, j.fields[i].value, g.value);
      }
      SamePropertiesHold(q, keyword, j.fields, x);
    }
  }

  lemma SamePropertiesHold(q: Reading, keyword: string, ps: seq<Field<Json>>, x: Json)
    requires x.Obj?
    requires forall i, g :: 0 <= i < |ps| && g in x.fields ==>
      Accepts(q, Expand(ps[i].value), g.value) == Accepts(q, ps[i].value, g.value)
    ensures PropertiesHold(q, keyword, Obj(ExpandFields(ps)), x) == PropertiesHold(q, keyword, Obj(ps), x)
  {
    var out := ExpandFields(ps);
    if PropertiesHold(q, keyword, Obj(out), x) {
      forall p, g | p in ps && g in x.fields && Covers(q, keyword, p.key, g.key)
        ensures Accepts(q, p.value, g.value)
      {
        var i :| 0 <= i < |ps| && ps[i] == p;
        assert out[i] in out;
      }
    }
    if PropertiesHold(q, keyword, Obj(ps), x) {
      forall p, g | p in out && g in x.fields && Covers(q, keyword, p.key, g.key)
        ensures Accepts(q, p.value, g.value)
      {
        var i :| 0 <= i < |out| && out[i] == p;
        assert ps[i] in ps;
      }
    }
  }

  lemma DeclaredSame(q: Reading, s: Json, key: string)
    requires SimpleParts(s)
    ensures Declares(q, ExpandFields(s.fields), key) == Declares(q, s.fields, key)
  {
    var p, r := Lookup(s.fields, "properties"), Lookup(s.fields, "patternProperties");
    if p.Some? { assert SimpleField(Field("properties", p.value)); }
    if r.Some? { assert SimpleField(Field("patternProperties", r.value)); }
    NamesExpanded(q, s.fields, "properties", key);
    NamesExpanded(q, s.fields, "patternProperties", key);
  }

  lemma {:induction false} ExtraMeaning(q: Reading, s: Json, value: Json, x: Json)
    requires SimpleParts(s) && Field("additionalProperties", value) in s.fields && Simple(value)
    ensures OthersAccepted(q, ExpandFields(s.fields), Expand(value), x) == OthersAccepted(q, s.fields, value, x)
    decreases s, 1
  {
    if x.Obj? {
      forall g | g in x.fields
        ensures Declares(q, ExpandFields(s.fields), g.key) == Declares(q, s.fields, g.key)
        ensures Accepts(q, Expand(value), g.value) == Accepts(q, value, g.value)
      {
        DeclaredSame(q, s, g.key);
        ExpandMeaning(q, value, g.value);
      }
    }
  }

  lemma {:induction false} BranchMeaning(q: Reading, s: Json, key: string, x: Json)
    requires SimpleParts(s) && AppliesSchema(key)
    ensures BranchHolds(q, ExpandFields(s.fields), key, x) == BranchHolds(q, s.fields, key, x)
    decreases s, 1
  {
    LookupExpanded(s.fields, key);
    SchemaField(s, key);
    var branch := Lookup(s.fields, key);
    if branch.Some? { ExpandMeaning(q, branch.value, x); }
  }
}
