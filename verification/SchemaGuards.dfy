/** What expansion does to guards, with the shape of a guard written out. */
module SchemaGuards {
  import opened Common
  import opened Json
  import opened SchemaExpand
  import opened SchemaMeaning
  import opened SchemaLosses

  // ---------------------------------------------------------------- the shape

  /** {"required": [...]} with strings only. */
  ghost predicate OnlyRequires(j: Json) {
    && j.Obj? && (forall f :: f in j.fields ==> f.key == "required")
    && exists r: seq<Json> :: Field("required", Arr(r)) in j.fields && forall i :: 0 <= i < |r| ==> r[i].Str?
  }

  /** An object schema with properties, whose keyword holds alternatives that only add required keys. */
  ghost predicate GuardShape(fields: seq<Field<Json>>, key: string, alternatives: seq<Json>) {
    && Field("type", Str("object")) in fields
    && (exists f :: f in fields && f.key == "properties" && (f.value.Obj? || f.value.Arr?))
    && Field(key, Arr(alternatives)) in fields && |alternatives| > 0
    && forall i :: 0 <= i < |alternatives| ==> OnlyRequires(alternatives[i])
  }

  ghost predicate HasShape(fields: seq<Field<Json>>) {
    || (exists alternatives :: GuardShape(fields, "anyOf", alternatives))
    || (exists alternatives :: GuardShape(fields, "oneOf", alternatives))
  }

  /** No object at any depth has the shape. */
  ghost predicate ShapeFree(n: Json) {
    match n
    case Arr(items) => forall i :: 0 <= i < |items| ==> ShapeFree(items[i])
    case Obj(fields) => !HasShape(fields) && forall i :: 0 <= i < |fields| ==> ShapeFree(fields[i].value)
    case _ => true
  }

  lemma OnlyRequiresDecided(j: Json)
    requires WellKeyed(j)
    ensures OnlyRequires(j) <==> RequiredOnly(j)
  {
    if j.Obj? {
      var r := Lookup(j.fields, "required");
      if items: seq<Json> :|
        Field("required", Arr(items)) in j.fields && forall i :: 0 <= i < |items| ==> items[i].Str? {
        KeyIsUnique(j.fields, Field("required", Arr(items)));
      }
      if RequiredOnly(j) { assert r == Some(Arr(r.value.items)); }
    }
  }

  lemma TypedDecided(fields: seq<Field<Json>>)
    requires DistinctKeys(fields)
    ensures TypedObject(fields) <==>
      Field("type", Str("object")) in fields
      && exists f :: f in fields && f.key == "properties" && (f.value.Obj? || f.value.Arr?)
  {
    if Field("type", Str("object")) in fields { KeyIsUnique(fields, Field("type", Str("object"))); }
    if f :| f in fields && f.key == "properties" && (f.value.Obj? || f.value.Arr?) { KeyIsUnique(fields, f); }
    var p := Lookup(fields, "properties");
    if p.Some? { assert Field("properties", p.value).key == "properties"; }
  }

  lemma AlternativesDecided(fields: seq<Field<Json>>, key: string, alternatives: seq<Json>)
    requires WellKeyed(Obj(fields)) && Field(key, Arr(alternatives)) in fields
    ensures Lookup(fields, key) == Some(Arr(alternatives))
    ensures |alternatives| > 0 && (forall i :: 0 <= i < |alternatives| ==> OnlyRequires(alternatives[i]))
            <==> IsGuard(Lookup(fields, key))
  {
    KeyIsUnique(fields, Field(key, Arr(alternatives)));
    FieldWellKeyed(fields, Field(key, Arr(alternatives)));
    forall i | 0 <= i < |alternatives|
      ensures OnlyRequires(alternatives[i]) <==> RequiredOnly(alternatives[i])
    {
      OnlyRequiresDecided(alternatives[i]);
    }
  }

  lemma ShapeDecided(fields: seq<Field<Json>>, key: string)
    requires WellKeyed(Obj(fields))
    ensures (exists alternatives :: GuardShape(fields, key, alternatives))
            <==> TypedObject(fields) && IsGuard(Lookup(fields, key))
  {
    TypedDecided(fields);
    if alternatives :| GuardShape(fields, key, alternatives) { AlternativesDecided(fields, key, alternatives); }
    if TypedObject(fields) && IsGuard(Lookup(fields, key)) {
      var alternatives := Lookup(fields, key).value.items;
      AlternativesDecided(fields, key, alternatives);
      assert GuardShape(fields, key, alternatives);
    }
  }

  lemma {:induction false} NoGuardsMeans(n: Json)
    requires WellKeyed(n)
    ensures NoGuards(n) <==> ShapeFree(n)
  {
    match n {
      case Arr(items) =>
        forall i | 0 <= i < |items| { NoGuardsMeans(items[i]); }
      case Obj(fields) =>
        ShapeDecided(fields, "anyOf");
        ShapeDecided(fields, "oneOf");
        forall i | 0 <= i < |fields| { NoGuardsMeans(fields[i].value); }
      case _ =>
    }
  }

  // ---------------------------------------------------------------- expansion leaves no guard

  lemma StringsWellKeyed(values: seq<string>)
    ensures WellKeyed(Strings(values))
  {
  }

  lemma VariantWellKeyed(fields: seq<Field<Json>>, guard: Json)
    requires WellKeyed(Obj(fields)) && RequiredOnly(guard)
    ensures WellKeyed(Variant(fields, guard))
  {
    var required := Strings(Unique(RequiredOf(fields) + RequiredOf(guard.fields)));
    var base := Without(fields, "anyOf", "oneOf");
    StringsWellKeyed(Unique(RequiredOf(fields) + RequiredOf(guard.fields)));
    WithoutDistinct(fields);
    WithDistinct(base, "required", required);
    var out := With(base, "required", required);
    forall i | 0 <= i < |out|
      ensures WellKeyed(out[i].value)
    {
      assert out[i] in out;
      if out[i] != Field("required", required) { FieldWellKeyed(fields, out[i]); }
    }
  }

  lemma DistinctCons(f: Field<Json>, rest: seq<Field<Json>>)
    requires DistinctKeys(rest) && forall g :: g in rest ==> g.key != f.key
    ensures DistinctKeys([f] + rest)
  {
    var all := [f] + rest;
    assert forall i :: 0 < i < |all| ==> all[i] == rest[i - 1] && rest[i - 1] in rest;
  }

  lemma DistinctTail(fields: seq<Field<Json>>)
    requires fields != [] && DistinctKeys(fields)
    ensures DistinctKeys(fields[1..]) && forall g :: g in fields[1..] ==> g.key != fields[0].key
  {
    forall g | g in fields[1..]
      ensures g.key != fields[0].key
    {
      var k :| 0 <= k < |fields[1..]| && fields[1..][k] == g;
      assert fields[k + 1] == g;
    }
  }

  lemma {:induction false} WithDistinct(fields: seq<Field<Json>>, key: string, value: Json)
    requires DistinctKeys(fields)
    ensures DistinctKeys(With(fields, key, value))
  {
    if fields != [] {
      DistinctTail(fields);
      WithDistinct(fields[1..], key, value);
      DistinctCons(if fields[0].key == key then Field(key, value) else fields[0],
                   if fields[0].key == key then fields[1..] else With(fields[1..], key, value));
    }
  }

  lemma {:induction false} ExpandWellKeyed(n: Json)
    requires WellKeyed(n)
    ensures WellKeyed(Expand(n))
  {
    match n {
      case Arr(items) =>
        forall i | 0 <= i < |items| { ExpandWellKeyed(items[i]); }
      case Obj(fields) =>
        forall i | 0 <= i < |fields| { ExpandWellKeyed(fields[i].value); }
        DistinctExpanded(fields);
        GuardedWellKeyed(ExpandFields(fields));
      case _ =>
    }
  }

  lemma GuardedWellKeyed(fields: seq<Field<Json>>)
    requires WellKeyed(Obj(fields))
    ensures WellKeyed(Guarded(fields))
  {
    var key := GuardKey(fields);
    if key.Some? {
      var guards := Lookup(fields, key.value).value.items;
      forall i | 0 <= i < |guards|
        ensures WellKeyed(Variant(fields, guards[i]))
      {
        VariantWellKeyed(fields, guards[i]);
      }
      assert WellKeyed(Arr(Variants(fields, guards)));
    }
  }

  /** What comes out has no guard left, at any depth. */
  lemma ExpandedIsShapeFree(n: Json)
    requires WellKeyed(n)
    ensures ShapeFree(Expand(n))
  {
    ExpandTwice(n);
    ExpandLeaves(Expand(n));
    ExpandWellKeyed(n);
    NoGuardsMeans(Expand(n));
  }

  /** And what has none is left alone. */
  lemma ShapeFreeStays(n: Json)
    requires WellKeyed(n)
    ensures Expand(n) == n <==> ShapeFree(n)
  {
    ExpandLeaves(n);
    NoGuardsMeans(n);
  }

  // ---------------------------------------------------------------- the union that takes its place

  /** The strings required by an object. */
  ghost predicate Demands(fields: seq<Field<Json>>, name: string) {
    exists r: seq<Json> :: Field("required", Arr(r)) in fields && exists k :: 0 <= k < |r| && r[k] == Str(name)
  }

  /** An object with the expanded fields of another one, except that it has no union keyword and
      requires what both the object and the alternative require, each key once. */
  ghost predicate VariantShape(v: Json, fields: seq<Field<Json>>, alternative: Json) {
    && v.Obj? && alternative.Obj? && WellKeyed(v)
    && (forall f :: f in v.fields && f.key != "required" ==>
          f.key != "anyOf" && f.key != "oneOf"
          && exists g :: g in fields && g.key == f.key && f.value == Expand(g.value))
    && (forall g :: g in fields && g.key != "required" && g.key != "anyOf" && g.key != "oneOf" ==>
          Field(g.key, Expand(g.value)) in v.fields)
    && (exists names: seq<string> ::
          Field("required", Strings(names)) in v.fields && NamesOf(names, fields, alternative))
    && Keys(v.fields) == UnionlessKeys(fields)
  }

  /** The required keys of both, each once, those of the object first. */
  ghost predicate NamesOf(names: seq<string>, fields: seq<Field<Json>>, alternative: Json)
    requires alternative.Obj?
  {
    && AllDifferent(names)
    && (forall name :: name in names <==> Demands(fields, name) || Demands(alternative.fields, name))
    && (forall i, k :: 0 <= i < k < |names| && Demands(fields, names[k]) ==> Demands(fields, names[i]))
  }

  function Keys(fields: seq<Field<Json>>): seq<string> {
    seq(|fields|, i requires 0 <= i < |fields| => fields[i].key)
  }

  function WithoutUnions(keys: seq<string>): seq<string> {
    if keys == [] then []
    else (if keys[0] == "anyOf" || keys[0] == "oneOf" then [] else [keys[0]]) + WithoutUnions(keys[1..])
  }

  /** The keys of the object in order, without the union keywords; "required" is added at the end if
      it was not there. */
  function UnionlessKeys(fields: seq<Field<Json>>): seq<string> {
    WithoutUnions(Keys(fields)) + if "required" in Keys(fields) then [] else ["required"]
  }

  predicate AllDifferent(names: seq<string>) { forall i, k :: 0 <= i < k < |names| ==> names[i] != names[k] }

  lemma {:induction false} StringItemsFound(items: seq<Json>, name: string)
    ensures name in StringItems(items) <==> exists k :: 0 <= k < |items| && items[k] == Str(name)
  {
    if items != [] {
      StringItemsFound(items[1..], name);
      assert forall k :: 0 < k < |items| ==> items[k] == items[1..][k - 1];
      if k :| 0 <= k < |items[1..]| && items[1..][k] == Str(name) { assert items[k + 1] == Str(name); }
    }
  }

  lemma RequiredOfMeans(fields: seq<Field<Json>>, name: string)
    requires DistinctKeys(fields)
    ensures name in RequiredOf(fields) <==> Demands(fields, name)
  {
    var r := Lookup(fields, "required");
    if r.Some? && r.value.Arr? {
      StringItemsFound(r.value.items, name);
      assert Field("required", Arr(r.value.items)) in fields;
    }
    if items: seq<Json> :|
      Field("required", Arr(items)) in fields && exists k :: 0 <= k < |items| && items[k] == Str(name) {
      KeyIsUnique(fields, Field("required", Arr(items)));
    }
  }

  lemma ExpandedStrings(r: Json, name: string)
    requires r.Arr?
    ensures Expand(r).Arr? && (name in StringItems(Expand(r).items) <==> name in StringItems(r.items))
  {
    StringItemsFound(r.items, name);
    StringItemsFound(Expand(r).items, name);
    forall k | 0 <= k < |r.items|
      ensures r.items[k] == Str(name) <==> Expand(r).items[k] == Str(name)
    {
      KindKept(r.items[k]);
    }
  }

  lemma ExpandedDemands(fields: seq<Field<Json>>, name: string)
    requires DistinctKeys(fields)
    ensures Demands(ExpandFields(fields), name) <==> Demands(fields, name)
  {
    var out := ExpandFields(fields);
    DistinctExpanded(fields);
    RequiredOfMeans(out, name);
    RequiredOfMeans(fields, name);
    LookupExpanded(fields, "required");
    var r := Lookup(fields, "required");
    if r.Some? {
      KindKept(r.value);
      if r.value.Arr? {
        ExpandedStrings(r.value, name);
      }
    }
  }

  lemma OnlyRequiresStays(j: Json)
    requires RequiredOnly(j) && DistinctKeys(j.fields)
    ensures Expand(j) == j
  {
    var out := ExpandFields(j.fields);
    forall i | 0 <= i < |j.fields|
      ensures out[i] == j.fields[i]
    {
      assert j.fields[i] in j.fields;
      KeyIsUnique(j.fields, j.fields[i]);
      StringArrayStays(j.fields[i].value);
    }
    assert out == j.fields;
    OnlyRequiredUntyped(j.fields);
  }

  lemma KeysCons(f: Field<Json>, rest: seq<Field<Json>>)
    ensures Keys([f] + rest) == [f.key] + Keys(rest)
    ensures WithoutUnions([f.key] + Keys(rest))
            == (if f.key == "anyOf" || f.key == "oneOf" then [] else [f.key]) + WithoutUnions(Keys(rest))
  {
    assert ([f.key] + Keys(rest))[1..] == Keys(rest);
  }

  lemma {:induction false} KeysOfWithout(fields: seq<Field<Json>>)
    ensures Keys(Without(fields, "anyOf", "oneOf")) == WithoutUnions(Keys(fields))
  {
    if fields != [] {
      var f, tail := fields[0], fields[1..];
      assert fields == [f] + tail;
      KeysOfWithout(tail);
      KeysCons(f, tail);
      KeysCons(f, Without(tail, "anyOf", "oneOf"));
    }
  }

  lemma {:induction false} KeysOfWith(fields: seq<Field<Json>>, key: string, value: Json)
    ensures Keys(With(fields, key, value)) == Keys(fields) + if key in Keys(fields) then [] else [key]
  {
    if fields == [] {
      KeysCons(Field(key, value), []);
      assert [Field(key, value)] + [] == [Field(key, value)];
    } else {
      var f, tail := fields[0], fields[1..];
      assert fields == [f] + tail;
      KeysOfWith(tail, key, value);
      KeysCons(f, tail);
      KeysCons(Field(key, value), tail);
      KeysCons(f, With(tail, key, value));
    }
  }

  lemma {:induction false} RequiredIsNoUnion(keys: seq<string>)
    ensures "required" in WithoutUnions(keys) <==> "required" in keys
  {
    if keys != [] { RequiredIsNoUnion(keys[1..]); }
  }

  lemma VariantKeys(fields: seq<Field<Json>>, alternative: Json)
    requires RequiredOnly(alternative)
    ensures Keys(Variant(ExpandFields(fields), alternative).fields) == UnionlessKeys(fields)
  {
    var out := ExpandFields(fields);
    assert Keys(out) == Keys(fields);
    KeysOfWithout(out);
    KeysOfWith(Without(out, "anyOf", "oneOf"), "required",
               Strings(Unique(RequiredOf(out) + RequiredOf(alternative.fields))));
    RequiredIsNoUnion(Keys(fields));
  }

  lemma FirstComeFirst(a: seq<string>, b: seq<string>, i: nat, k: nat)
    requires i < k < |Unique(a + b)| && Unique(a + b)[k] in a
    ensures Unique(a + b)[i] in a
  {
    var at :| 0 <= at < |a| && a[at] == Unique(a + b)[k];
    UniqueInOrder(a + b, i, k, at);
  }

  lemma VariantMeans(fields: seq<Field<Json>>, alternative: Json)
    requires WellKeyed(Obj(fields)) && RequiredOnly(alternative) && WellKeyed(alternative)
    ensures VariantShape(Variant(ExpandFields(fields), alternative), fields, alternative)
  {
    var out := ExpandFields(fields);
    var v, names := Variant(out, alternative), Unique(RequiredOf(out) + RequiredOf(alternative.fields));
    DistinctExpanded(fields);
    VariantHolds(fields, alternative);
    VariantFields(out, alternative, Field("required", Strings(names)));
    forall name
      ensures name in names <==> Demands(fields, name) || Demands(alternative.fields, name)
    {
      assert name in names <==> name in RequiredOf(out) || name in RequiredOf(alternative.fields);
      RequiredOfMeans(out, name);
      ExpandedDemands(fields, name);
      RequiredOfMeans(alternative.fields, name);
    }
    VariantIsWellKeyed(fields, alternative);
    VariantKeys(fields, alternative);
    forall i, k | 0 <= i < k < |names| && Demands(fields, names[k])
      ensures Demands(fields, names[i])
    {
      OrderedNames(fields, alternative, i, k);
    }
    assert NamesOf(names, fields, alternative);
  }

  lemma OrderedNames(fields: seq<Field<Json>>, alternative: Json, i: nat, k: nat)
    requires DistinctKeys(fields) && RequiredOnly(alternative)
    requires var names := Unique(RequiredOf(ExpandFields(fields)) + RequiredOf(alternative.fields));
      i < k < |names| && Demands(fields, names[k])
    ensures Demands(fields, Unique(RequiredOf(ExpandFields(fields)) + RequiredOf(alternative.fields))[i])
  {
    var out := ExpandFields(fields);
    var a, b := RequiredOf(out), RequiredOf(alternative.fields);
    var names := Unique(a + b);
    DistinctExpanded(fields);
    ExpandedDemands(fields, names[k]);
    RequiredOfMeans(out, names[k]);
    FirstComeFirst(a, b, i, k);
    RequiredOfMeans(out, names[i]);
    ExpandedDemands(fields, names[i]);
  }

  lemma VariantIsWellKeyed(fields: seq<Field<Json>>, alternative: Json)
    requires WellKeyed(Obj(fields)) && RequiredOnly(alternative)
    ensures WellKeyed(Variant(ExpandFields(fields), alternative))
  {
    DistinctExpanded(fields);
    forall i | 0 <= i < |fields| { ExpandWellKeyed(fields[i].value); }
    VariantWellKeyed(ExpandFields(fields), alternative);
  }

  /** The fields of a variant besides the required keys. */
  lemma VariantHolds(fields: seq<Field<Json>>, alternative: Json)
    requires DistinctKeys(fields) && RequiredOnly(alternative)
    ensures var v := Variant(ExpandFields(fields), alternative);
      && (forall f :: f in v.fields && f.key != "required" ==>
            f.key != "anyOf" && f.key != "oneOf"
            && exists g :: g in fields && g.key == f.key && f.value == Expand(g.value))
      && (forall g :: g in fields && g.key != "required" && g.key != "anyOf" && g.key != "oneOf" ==>
            Field(g.key, Expand(g.value)) in v.fields)
  {
    var out := ExpandFields(fields);
    var v := Variant(out, alternative);
    DistinctExpanded(fields);
    forall f | f in v.fields && f.key != "required"
      ensures f.key != "anyOf" && f.key != "oneOf"
      ensures exists g :: g in fields && g.key == f.key && f.value == Expand(g.value)
    {
      VariantFields(out, alternative, f);
      var i :| 0 <= i < |out| && out[i] == f;
      assert fields[i] in fields;
    }
    forall g | g in fields && g.key != "required" && g.key != "anyOf" && g.key != "oneOf"
      ensures Field(g.key, Expand(g.value)) in v.fields
    {
      var i :| 0 <= i < |fields| && fields[i] == g;
      assert out[i] in out;
      VariantFields(out, alternative, out[i]);
    }
  }

  /** An object with the shape becomes a union, one variant for each alternative: the fields of the
      object, expanded, without union keywords, and the required keys of both.  anyOf goes first. */
  lemma GuardBecomesUnion(fields: seq<Field<Json>>, key: string, alternatives: seq<Json>)
    requires WellKeyed(Obj(fields)) && GuardShape(fields, key, alternatives)
    requires key == "anyOf" || (key == "oneOf" && !exists others :: GuardShape(fields, "anyOf", others))
    ensures var e := Expand(Obj(fields));
      && e.Obj? && |e.fields| == 1 && e.fields[0].key == "oneOf" && e.fields[0].value.Arr?
      && |e.fields[0].value.items| == |alternatives|
      && forall i :: 0 <= i < |alternatives| ==> VariantShape(e.fields[0].value.items[i], fields, alternatives[i])
  {
    var out := ExpandFields(fields);
    GuardKeyOfShape(fields, key, alternatives);
    GuardExpands(fields, key, alternatives);
    forall i | 0 <= i < |alternatives|
      ensures VariantShape(Variant(out, alternatives[i]), fields, alternatives[i])
    {
      VariantMeans(fields, alternatives[i]);
    }
  }

  lemma GuardKeyOfShape(fields: seq<Field<Json>>, key: string, alternatives: seq<Json>)
    requires WellKeyed(Obj(fields)) && GuardShape(fields, key, alternatives)
    requires key == "anyOf" || (key == "oneOf" && !exists others :: GuardShape(fields, "anyOf", others))
    ensures GuardKey(fields) == Some(key) && Lookup(fields, key) == Some(Arr(alternatives))
    ensures forall i :: 0 <= i < |alternatives| ==> RequiredOnly(alternatives[i]) && WellKeyed(alternatives[i])
  {
    ShapeDecided(fields, "anyOf");
    ShapeDecided(fields, "oneOf");
    AlternativesDecided(fields, key, alternatives);
    FieldWellKeyed(fields, Field(key, Arr(alternatives)));
  }

  lemma GuardExpands(fields: seq<Field<Json>>, key: string, alternatives: seq<Json>)
    requires WellKeyed(Obj(fields)) && GuardKey(fields) == Some(key) && Lookup(fields, key) == Some(Arr(alternatives))
    requires forall i :: 0 <= i < |alternatives| ==> RequiredOnly(alternatives[i]) && WellKeyed(alternatives[i])
    ensures Expand(Obj(fields)) == Obj([Field("oneOf", Arr(Variants(ExpandFields(fields), alternatives)))])
  {
    var out := ExpandFields(fields);
    UnionsAreDistinct(fields);
    GuardKeyKept(fields);
    LookupExpanded(fields, key);
    AlternativesStay(alternatives);
  }

  lemma AlternativesStay(alternatives: seq<Json>)
    requires forall i :: 0 <= i < |alternatives| ==> RequiredOnly(alternatives[i]) && WellKeyed(alternatives[i])
    ensures Expand(Arr(alternatives)) == Arr(alternatives)
  {
    forall i | 0 <= i < |alternatives|
      ensures Expand(alternatives[i]) == alternatives[i]
    {
      OnlyRequiresStays(alternatives[i]);
    }
    assert ExpandItems(alternatives) == alternatives;
  }
}
