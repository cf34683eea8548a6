/** Rewriting guards before TypeScript is generated: an object schema whose anyOf or oneOf only adds
    required keys becomes a union of object schemas. */
module SchemaExpand {
  import opened Common
  import opened Json

  // ---------------------------------------------------------------- object fields

  function Without(fields: seq<Field<Json>>, a: string, b: string): (r: seq<Field<Json>>)
    ensures forall f :: f in r <==> f in fields && f.key != a && f.key != b
  {
    if fields == [] then []
    else (if fields[0].key == a || fields[0].key == b then [] else [fields[0]]) + Without(fields[1..], a, b)
  }

  /** Assigning one key of a copied object. */
  function With(fields: seq<Field<Json>>, key: string, value: Json): (r: seq<Field<Json>>)
    ensures Field(key, value) in r
    ensures forall f :: f in r ==> f == Field(key, value) || f in fields
    ensures forall f :: f in fields && f.key != key ==> f in r
  {
    if fields == [] then [Field(key, value)]
    else if fields[0].key == key then [Field(key, value)] + fields[1..]
    else [fields[0]] + With(fields[1..], key, value)
  }

  // ---------------------------------------------------------------- the rewriting

  predicate StringArray(j: Json) { j.Arr? && forall i :: 0 <= i < |j.items| ==> j.items[i].Str? }

  /** isRequiredOnlyVariant. */
  predicate RequiredOnly(j: Json) {
    && j.Obj? && (forall f :: f in j.fields ==> f.key == "required")
    && Lookup(j.fields, "required").Some? && StringArray(Lookup(j.fields, "required").value)
  }

  predicate IsGuard(j: Option<Json>) {
    && j.Some? && j.value.Arr? && j.value.items != []
    && forall i :: 0 <= i < |j.value.items| ==> RequiredOnly(j.value.items[i])
  }

  /** The strings of an array; anything else contributes none. */
  function StringsIn(j: Json): seq<string> { if j.Arr? then StringItems(j.items) else [] }

  function StringItems(items: seq<Json>): seq<string> {
    if items == [] then [] else (if items[0].Str? then [items[0].text] else []) + StringItems(items[1..])
  }

  /** uniqueRequired: first occurrences, in order. */
  function Unique(values: seq<string>): (r: seq<string>)
    ensures forall v :: v in r <==> v in values
    ensures forall i, k :: 0 <= i < k < |r| ==> r[i] != r[k]
  {
    if values == [] then []
    else
      var front, last := Unique(values[..|values| - 1]), values[|values| - 1];
      assert forall v :: v in values <==> v in values[..|values| - 1] || v == last;
      if last in front then front else front + [last]
  }

  /** The kept keys come in the order of their first occurrences. */
  lemma {:induction false} UniqueInOrder(values: seq<string>, i: nat, k: nat, at: nat)
    requires i < k < |Unique(values)| && at < |values| && values[at] == Unique(values)[k]
    ensures exists b :: 0 <= b < at && values[b] == Unique(values)[i]
  {
    var n := |values| - 1;
    var front := Unique(values[..n]);
    assert forall a :: 0 <= a < n ==> values[a] == values[..n][a] && values[a] in values[..n];
    if k < |front| {
      if at < n {
        UniqueInOrder(values[..n], i, k, at);
      } else {
        assert front[k] in values[..n];
        var a :| 0 <= a < n && values[..n][a] == front[k];
        UniqueInOrder(values[..n], i, k, a);
      }
    } else {
      assert front[i] in values[..n];
    }
  }

  function Strings(values: seq<string>): Json { Arr(seq(|values|, i requires 0 <= i < |values| => Str(values[i]))) }

  function RequiredOf(fields: seq<Field<Json>>): seq<string> {
    var r := Lookup(fields, "required");
    if r.Some? then StringsIn(r.value) else []
  }

  function Variant(fields: seq<Field<Json>>, guard: Json): Json
    requires RequiredOnly(guard)
  {
    Obj(With(Without(fields, "anyOf", "oneOf"), "required",
             Strings(Unique(RequiredOf(fields) + RequiredOf(guard.fields)))))
  }

  function Variants(fields: seq<Field<Json>>, guards: seq<Json>): (r: seq<Json>)
    requires forall i :: 0 <= i < |guards| ==> RequiredOnly(guards[i])
    ensures |r| == |guards| && forall i :: 0 <= i < |guards| ==> r[i] == Variant(fields, guards[i])
  {
    seq(|guards|, i requires 0 <= i < |guards| => Variant(fields, guards[i]))
  }

  predicate TypedObject(fields: seq<Field<Json>>) {
    && Lookup(fields, "type") == Some(Str("object"))
    && var p := Lookup(fields, "properties"); p.Some? && (p.value.Obj? || p.value.Arr?)
  }

  /** The keyword whose variants are expanded: anyOf is tried first. */
  function GuardKey(fields: seq<Field<Json>>): Option<string> {
    if !TypedObject(fields) then None
    else if IsGuard(Lookup(fields, "anyOf")) then Some("anyOf")
    else if IsGuard(Lookup(fields, "oneOf")) then Some("oneOf")
    else None
  }

  function Guarded(fields: seq<Field<Json>>): Json {
    match GuardKey(fields)
    case None => Obj(fields)
    case Some(key) => Obj([Field("oneOf", Arr(Variants(fields, Lookup(fields, key).value.items)))])
  }

  /** expandRequiredGuardUnions. */
  function Expand(n: Json): Json {
    match n
    case Arr(items) => Arr(ExpandItems(items))
    case Obj(fields) => Guarded(ExpandFields(fields))
    case _ => n
  }

  function ExpandItems(items: seq<Json>): (r: seq<Json>)
    ensures |r| == |items| && forall i :: 0 <= i < |items| ==> r[i] == Expand(items[i])
  {
    if items == [] then [] else [Expand(items[0])] + ExpandItems(items[1..])
  }

  function ExpandFields(fields: seq<Field<Json>>): (r: seq<Field<Json>>)
    ensures |r| == |fields|
    ensures forall i :: 0 <= i < |fields| ==> r[i] == Field(fields[i].key, Expand(fields[i].value))
  {
    if fields == [] then [] else [Field(fields[0].key, Expand(fields[0].value))] + ExpandFields(fields[1..])
  }

  // ---------------------------------------------------------------- what expansion leaves alone

  /** At no depth an object that looks like a guarded schema. */
  predicate NoGuards(n: Json) {
    match n
    case Arr(items) => forall i :: 0 <= i < |items| ==> NoGuards(items[i])
    case Obj(fields) => GuardKey(fields).None? && forall i :: 0 <= i < |fields| ==> NoGuards(fields[i].value)
    case _ => true
  }

  lemma UnionChanges(fields: seq<Field<Json>>)
    requires GuardKey(ExpandFields(fields)).Some?
    ensures Guarded(ExpandFields(fields)) != Obj(fields)
  {
    var out := ExpandFields(fields);
    var f := Field("type", Str("object"));
    var i :| 0 <= i < |out| && out[i] == f;
    assert fields[i].key == "type" && Guarded(out).fields[0].key == "oneOf";
    assert |fields| == 1 ==> i == 0;
  }

  /** Expansion leaves a value as it is if and only if the value has no guard at any depth. */
  lemma {:induction false} ExpandLeaves(n: Json)
    ensures Expand(n) == n <==> NoGuards(n)
  {
    match n {
      case Arr(items) =>
        forall i | 0 <= i < |items| { ExpandLeaves(items[i]); }
        assert ExpandItems(items) == items <==> forall i :: 0 <= i < |items| ==> Expand(items[i]) == items[i];
      case Obj(fields) =>
        forall i | 0 <= i < |fields| { ExpandLeaves(fields[i].value); }
        var out := ExpandFields(fields);
        assert out == fields <==> forall i :: 0 <= i < |fields| ==> Expand(fields[i].value) == fields[i].value;
        if GuardKey(out).Some? { UnionChanges(fields); }
      case _ =>
    }
  }

  // ---------------------------------------------------------------- expanding twice

  ghost predicate Fixed(fields: seq<Field<Json>>) { forall f :: f in fields ==> Expand(f.value) == f.value }

  lemma FixedStays(fields: seq<Field<Json>>)
    requires Fixed(fields)
    ensures ExpandFields(fields) == fields
  {
    assert forall i :: 0 <= i < |fields| ==> fields[i] in fields;
  }

  lemma StringsStay(values: seq<string>)
    ensures Expand(Strings(values)) == Strings(values)
  {
    assert ExpandItems(Strings(values).items) == Strings(values).items;
  }

  lemma VariantStays(fields: seq<Field<Json>>, guard: Json)
    requires Fixed(fields) && RequiredOnly(guard)
    ensures Expand(Variant(fields, guard)) == Variant(fields, guard)
  {
    var v := Variant(fields, guard);
    StringsStay(Unique(RequiredOf(fields) + RequiredOf(guard.fields)));
    FixedStays(v.fields);
    assert Lookup(v.fields, "anyOf").None? && Lookup(v.fields, "oneOf").None?;
  }

  lemma UnionStays(vs: seq<Json>)
    requires forall i :: 0 <= i < |vs| ==> Expand(vs[i]) == vs[i]
    ensures Expand(Obj([Field("oneOf", Arr(vs))])) == Obj([Field("oneOf", Arr(vs))])
  {
    var fields := [Field("oneOf", Arr(vs))];
    assert ExpandItems(vs) == vs;
    FixedStays(fields);
    assert Lookup(fields, "type").None?;
  }

  lemma GuardedStays(fields: seq<Field<Json>>)
    requires Fixed(fields)
    ensures Expand(Guarded(fields)) == Guarded(fields)
  {
    var key := GuardKey(fields);
    if key.Some? {
      var guards := Lookup(fields, key.value).value.items;
      var vs := Variants(fields, guards);
      forall i | 0 <= i < |vs|
        ensures Expand(vs[i]) == vs[i]
      {
        VariantStays(fields, guards[i]);
      }
      UnionStays(vs);
    } else {
      FixedStays(fields);
    }
  }

  /** Expansion is idempotent, on any JSON whatever. */
  lemma {:induction false} ExpandTwice(n: Json)
    ensures Expand(Expand(n)) == Expand(n)
  {
    match n {
      case Arr(items) =>
        forall i | 0 <= i < |items|
          ensures Expand(ExpandItems(items)[i]) == ExpandItems(items)[i]
        {
          ExpandTwice(items[i]);
        }
        assert ExpandItems(ExpandItems(items)) == ExpandItems(items);
      case Obj(fields) =>
        var out := ExpandFields(fields);
        forall f | f in out
          ensures Expand(f.value) == f.value
        {
          var i :| 0 <= i < |out| && out[i] == f;
          ExpandTwice(fields[i].value);
        }
        GuardedStays(out);
      case _ =>
    }
  }
}
