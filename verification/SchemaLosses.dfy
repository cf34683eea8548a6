/** What rewriting guards loses: the second union keyword of a guarded object, and data that reads like
    a guarded schema. */
module SchemaLosses {
  import opened Common
  import opened Json
  import opened SchemaExpand
  import opened SchemaMeaning

  // ---------------------------------------------------------------- the second union keyword

  function OtherUnion(key: string): string { if key == "anyOf" then "oneOf" else "anyOf" }

  lemma WithoutOne(fields: seq<Field<Json>>, gone: string, key: string)
    requires DistinctKeys(fields)
    ensures DistinctKeys(Without(fields, gone, gone))
    ensures key != gone ==> Lookup(Without(fields, gone, gone), key) == Lookup(fields, key)
    ensures Lookup(Without(fields, gone, gone), gone).None?
  {
    WithoutDistinctOne(fields, gone);
    var rest := Without(fields, gone, gone);
    var r := Lookup(fields, key);
    if key != gone && r.Some? { KeyIsUnique(rest, Field(key, r.value)); }
  }

  lemma {:induction false} WithoutDistinctOne(fields: seq<Field<Json>>, gone: string)
    requires DistinctKeys(fields)
    ensures DistinctKeys(Without(fields, gone, gone))
  {
    if fields != [] {
      WithoutDistinctOne(fields[1..], gone);
      forall f | f in Without(fields[1..], gone, gone)
        ensures f.key != fields[0].key
      {
        var i :| 0 <= i < |fields[1..]| && fields[1..][i] == f;
        assert fields[i + 1] == f;
      }
    }
  }

  lemma {:induction false} WithoutTwice(fields: seq<Field<Json>>, gone: string)
    requires gone == "anyOf" || gone == "oneOf"
    ensures Without(Without(fields, gone, gone), "anyOf", "oneOf") == Without(fields, "anyOf", "oneOf")
  {
    if fields != [] {
      WithoutTwice(fields[1..], gone);
      if fields[0].key != gone {
        var rest := Without(fields[1..], gone, gone);
        assert Without(fields, gone, gone) == [fields[0]] + rest;
        assert ([fields[0]] + rest)[1..] == rest;
      } else {
        assert Without(fields, gone, gone) == Without(fields[1..], gone, gone);
      }
    }
  }

  lemma SameGuard(fields: seq<Field<Json>>, key: string)
    requires DistinctKeys(fields) && GuardKey(fields) == Some(key)
    ensures var rest := Without(fields, OtherUnion(key), OtherUnion(key));
      GuardKey(rest) == Some(key) && Lookup(rest, key) == Lookup(fields, key) && RequiredOf(rest) == RequiredOf(fields)
  {
    var gone := OtherUnion(key);
    WithoutOne(fields, gone, "type");
    WithoutOne(fields, gone, "properties");
    WithoutOne(fields, gone, "required");
    WithoutOne(fields, gone, key);
  }

  lemma DropsSecond(fields: seq<Field<Json>>, key: string)
    requires DistinctKeys(fields) && GuardKey(fields) == Some(key)
    ensures Guarded(fields) == Guarded(Without(fields, OtherUnion(key), OtherUnion(key)))
  {
    var rest := Without(fields, OtherUnion(key), OtherUnion(key));
    SameGuard(fields, key);
    WithoutTwice(fields, OtherUnion(key));
    var guards := Lookup(fields, key).value.items;
    assert Variants(rest, guards) == Variants(fields, guards);
  }

  lemma RestIsGuarded(fields: seq<Field<Json>>, key: string)
    requires DistinctKeys(fields) && (key == "anyOf" || key == "oneOf") && AlternativesDistinct(Lookup(fields, key))
    ensures var rest := Without(fields, OtherUnion(key), OtherUnion(key));
      && DistinctKeys(rest)
      && AlternativesDistinct(Lookup(rest, "anyOf")) && AlternativesDistinct(Lookup(rest, "oneOf"))
      && (Lookup(rest, "anyOf").None? || Lookup(rest, "oneOf").None?)
  {
    var rest := Without(fields, OtherUnion(key), OtherUnion(key));
    WithoutOne(fields, OtherUnion(key), key);
    assert AlternativesDistinct(Lookup(rest, key));
    assert AlternativesDistinct(Lookup(rest, OtherUnion(key)));
  }

  lemma DroppedMeaning(q: Reading, fields: seq<Field<Json>>, key: string, x: Json)
    requires DistinctKeys(fields) && GuardKey(fields) == Some(key) && AlternativesDistinct(Lookup(fields, key))
    ensures Accepts(q, Guarded(fields), x) <==> Accepts(q, Obj(Without(fields, OtherUnion(key), OtherUnion(key))), x)
  {
    RestIsGuarded(fields, key);
    GuardedMeaning(q, Without(fields, OtherUnion(key), OtherUnion(key)), x);
    DropsSecond(fields, key);
  }

  lemma UnionHolds(q: Reading, s: Json, f: Field<Json>, x: Json)
    requires s.Obj? && f in s.fields && (f.key == "anyOf" || f.key == "oneOf")
    ensures Holds(q, s, f, x) == AnyAccepts(q, f.value, x)
  {
  }

  lemma SplitUnion(q: Reading, fields: seq<Field<Json>>, gone: string, dropped: Json, x: Json)
    requires DistinctKeys(fields) && (gone == "anyOf" || gone == "oneOf") && Lookup(fields, gone) == Some(dropped)
    ensures Accepts(q, Obj(fields), x) <==> Accepts(q, Obj(Without(fields, gone, gone)), x) && AnyAccepts(q, dropped, x)
  {
    var f := Field(gone, dropped);
    SplitOff(q, fields, f, x);
    WithoutHolds(q, fields, gone, x);
    UnionHolds(q, Obj(fields), f, x);
  }

  lemma GuardedDropsSecond(q: Reading, fields: seq<Field<Json>>, key: string, dropped: Json, x: Json)
    requires DistinctKeys(fields) && GuardKey(fields) == Some(key) && AlternativesDistinct(Lookup(fields, key))
    requires Lookup(fields, OtherUnion(key)) == Some(dropped)
    ensures Accepts(q, Guarded(fields), x) <==> OthersHold(q, fields, OtherUnion(key), x)
    ensures Accepts(q, Obj(fields), x) <==> Accepts(q, Guarded(fields), x) && AnyAccepts(q, dropped, x)
  {
    WithoutHolds(q, fields, OtherUnion(key), x);
    DroppedMeaning(q, fields, key, x);
    SplitUnion(q, fields, OtherUnion(key), dropped, x);
  }

  lemma OthersKept(q: Reading, fields: seq<Field<Json>>, key: string, x: Json)
    requires SimpleParts(Obj(fields))
    ensures OthersHold(q, ExpandFields(fields), key, x) <==> OthersHold(q, fields, key, x)
  {
    var out := ExpandFields(fields);
    forall i | 0 <= i < |fields|
      ensures Holds(q, Obj(out), out[i], x) == Holds(q, Obj(fields), fields[i], x)
    {
      FieldMeaning(q, Obj(fields), i, x);
    }
  }

  lemma SecondExpanded(fields: seq<Field<Json>>, key: string, dropped: Json)
    requires SimpleParts(Obj(fields)) && GuardKey(fields) == Some(key)
    requires Lookup(fields, OtherUnion(key)) == Some(dropped)
    ensures var out := ExpandFields(fields);
      && DistinctKeys(out) && GuardKey(out) == Some(key) && AlternativesDistinct(Lookup(out, key))
      && Lookup(out, OtherUnion(key)) == Some(Expand(dropped)) && SimpleArray(dropped)
  {
    UnionFields(fields);
    SimpleIsDistinct(fields);
    GuardKeyKept(fields);
    LookupExpanded(fields, OtherUnion(key));
    ExpandedGuards(fields);
  }

  /** A guarded schema with both union keywords loses the second one: the rewritten schema accepts
      what the schema without that keyword accepts, so the verdict on an instance changes exactly
      when everything but the dropped keyword holds of it. */
  lemma SecondKeywordIsDropped(q: Reading, fields: seq<Field<Json>>, key: string, dropped: Json, x: Json)
    requires SimpleParts(Obj(fields)) && GuardKey(fields) == Some(key)
    requires Lookup(fields, OtherUnion(key)) == Some(dropped)
    ensures Accepts(q, Expand(Obj(fields)), x) <==> OthersHold(q, fields, OtherUnion(key), x)
    ensures Accepts(q, Obj(fields), x) <==> Accepts(q, Expand(Obj(fields)), x) && AnyAccepts(q, dropped, x)
  {
    SecondExpanded(fields, key, dropped);
    GuardedDropsSecond(q, ExpandFields(fields), key, Expand(dropped), x);
    OthersKept(q, fields, OtherUnion(key), x);
    ChildrenMeaning(q, Obj(fields), x);
    ArrayMeaning(q, dropped, x);
  }

  lemma WithoutHolds(q: Reading, fields: seq<Field<Json>>, gone: string, x: Json)
    requires DistinctKeys(fields) && (gone == "anyOf" || gone == "oneOf")
    ensures Accepts(q, Obj(Without(fields, gone, gone)), x) <==> OthersHold(q, fields, gone, x)
  {
    var rest := Without(fields, gone, gone);
    WithoutOne(fields, gone, "properties");
    WithoutOne(fields, gone, "patternProperties");
    WithoutOne(fields, gone, "then");
    WithoutOne(fields, gone, "else");
    forall f | f in rest
      ensures Holds(q, Obj(rest), f, x) == Holds(q, Obj(fields), f, x)
    {
      HoldsLocally(q, Obj(rest), Obj(fields), f, x);
    }
  }

  // ---------------------------------------------------------------- at every depth

  /** The schema without the union keywords that the rewriting drops, at any depth. */
  function Erase(n: Json): Json {
    match n
    case Arr(items) => Arr(EraseItems(items))
    case Obj(fields) => Obj(Kept(EraseFields(fields)))
    case _ => n
  }

  function EraseItems(items: seq<Json>): (r: seq<Json>)
    ensures |r| == |items| && forall i :: 0 <= i < |items| ==> r[i] == Erase(items[i])
  {
    if items == [] then [] else [Erase(items[0])] + EraseItems(items[1..])
  }

  function EraseFields(fields: seq<Field<Json>>): (r: seq<Field<Json>>)
    ensures |r| == |fields|
    ensures forall i :: 0 <= i < |fields| ==> r[i] == Field(fields[i].key, Erase(fields[i].value))
  {
    if fields == [] then [] else [Field(fields[0].key, Erase(fields[0].value))] + EraseFields(fields[1..])
  }

  function Kept(fields: seq<Field<Json>>): seq<Field<Json>> {
    match GuardKey(fields)
    case None => fields
    case Some(key) => Without(fields, OtherUnion(key), OtherUnion(key))
  }

  /** JSON: the keys of every object are distinct. */
  ghost predicate WellKeyed(n: Json) {
    match n
    case Arr(items) => forall i :: 0 <= i < |items| ==> WellKeyed(items[i])
    case Obj(fields) => DistinctKeys(fields) && forall i :: 0 <= i < |fields| ==> WellKeyed(fields[i].value)
    case _ => true
  }

  lemma {:induction false} EraseWellKeyed(n: Json)
    requires WellKeyed(n)
    ensures WellKeyed(Erase(n))
  {
    match n {
      case Arr(items) =>
        forall i | 0 <= i < |items| { EraseWellKeyed(items[i]); }
      case Obj(fields) =>
        forall i | 0 <= i < |fields| { EraseWellKeyed(fields[i].value); }
        var out := EraseFields(fields);
        if GuardKey(out).Some? { WithoutDistinctOne(out, OtherUnion(GuardKey(out).value)); }
        forall i | 0 <= i < |Kept(out)|
          ensures WellKeyed(Kept(out)[i].value)
        {
          assert Kept(out)[i] in out;
        }
      case _ =>
    }
  }

  lemma {:induction false} WithoutExpanded(fields: seq<Field<Json>>, gone: string)
    ensures ExpandFields(Without(fields, gone, gone)) == Without(ExpandFields(fields), gone, gone)
  {
    if fields != [] {
      WithoutExpanded(fields[1..], gone);
      var f, rest := Field(fields[0].key, Expand(fields[0].value)), ExpandFields(fields[1..]);
      assert ExpandFields(fields) == [f] + rest && ([f] + rest)[1..] == rest;
      if fields[0].key != gone {
        var kept := Without(fields[1..], gone, gone);
        assert ([fields[0]] + kept)[1..] == kept;
      }
    }
  }

  lemma KeptExpands(fields: seq<Field<Json>>)
    requires WellKeyed(Obj(fields))
    ensures Expand(Obj(Kept(fields))) == Expand(Obj(fields))
  {
    var key := GuardKey(fields);
    if key.Some? {
      UnionsAreDistinct(fields);
      GuardKeyKept(fields);
      WithoutExpanded(fields, OtherUnion(key.value));
      LookupExpanded(fields, "type");
      DropsSecond(ExpandFields(fields), key.value);
    }
  }

  lemma UnionsAreDistinct(fields: seq<Field<Json>>)
    requires WellKeyed(Obj(fields))
    ensures DistinctUnions(fields)
  {
    var a, o := Lookup(fields, "anyOf"), Lookup(fields, "oneOf");
    if a.Some? { FieldWellKeyed(fields, Field("anyOf", a.value)); }
    if o.Some? { FieldWellKeyed(fields, Field("oneOf", o.value)); }
  }

  lemma FieldWellKeyed(fields: seq<Field<Json>>, f: Field<Json>)
    requires WellKeyed(Obj(fields)) && f in fields
    ensures WellKeyed(f.value) && ItemsDistinct(f.value)
  {
    var i :| 0 <= i < |fields| && fields[i] == f;
    if f.value.Arr? {
      forall k | 0 <= k < |f.value.items|
        ensures WellKeyed(f.value.items[k])
      {
      }
    }
  }

  /** Nothing else is lost: with those keywords erased the rewriting yields the same schema. */
  lemma {:induction false} ErasedExpandsAlike(n: Json)
    requires WellKeyed(n)
    ensures Expand(Erase(n)) == Expand(n)
  {
    match n {
      case Arr(items) =>
        forall i | 0 <= i < |items| { ErasedExpandsAlike(items[i]); }
        assert ExpandItems(EraseItems(items)) == ExpandItems(items);
      case Obj(fields) =>
        forall i | 0 <= i < |fields| { ErasedExpandsAlike(fields[i].value); }
        var out := EraseFields(fields);
        assert ExpandFields(out) == ExpandFields(fields);
        forall i | 0 <= i < |fields| { EraseWellKeyed(fields[i].value); }
        KeptExpands(out);
      case _ =>
    }
  }

  /** No object at any depth is guarded and has both union keywords. */
  predicate NoDoubles(n: Json) {
    match n
    case Arr(items) => forall i :: 0 <= i < |items| ==> NoDoubles(items[i])
    case Obj(fields) => OneUnion(fields) && forall i :: 0 <= i < |fields| ==> NoDoubles(fields[i].value)
    case _ => true
  }

  lemma {:induction false} WithoutLength(fields: seq<Field<Json>>, gone: string)
    ensures |Without(fields, gone, gone)| <= |fields|
    ensures if Lookup(fields, gone).None? then Without(fields, gone, gone) == fields
            else |Without(fields, gone, gone)| < |fields|
  {
    if fields != [] {
      WithoutLength(fields[1..], gone);
      if fields[0].key != gone { assert fields == [fields[0]] + fields[1..]; }
    }
  }

  lemma KeptKeeps(fields: seq<Field<Json>>)
    ensures |Kept(fields)| <= |fields|
    ensures if OneUnion(fields) then Kept(fields) == fields else |Kept(fields)| < |fields|
  {
    var key := GuardKey(fields);
    if key.Some? { WithoutLength(fields, OtherUnion(key.value)); }
  }

  /** Erasing leaves exactly the values without such an object as they are. */
  lemma {:induction false} EraseLeaves(n: Json)
    ensures Erase(n) == n <==> NoDoubles(n)
  {
    match n {
      case Arr(items) =>
        forall i | 0 <= i < |items| { EraseLeaves(items[i]); }
        assert EraseItems(items) == items <==> forall i :: 0 <= i < |items| ==> Erase(items[i]) == items[i];
      case Obj(fields) =>
        forall i | 0 <= i < |fields| { EraseLeaves(fields[i].value); }
        var out := EraseFields(fields);
        assert out == fields <==> forall i :: 0 <= i < |fields| ==> Erase(fields[i].value) == fields[i].value;
        KeptKeeps(out);
      case _ =>
    }
  }

  /** What the rewriting means for any schema that is simple but for its dropped keywords: it accepts
      what is accepted once they are erased, and nothing more. */
  lemma ExpandErases(q: Reading, s: Json, x: Json)
    requires WellKeyed(s) && Simple(Erase(s))
    ensures Accepts(q, Expand(s), x) <==> Accepts(q, Erase(s), x)
  {
    ErasedExpandsAlike(s);
    ExpandMeaning(q, Erase(s), x);
  }

  // ---------------------------------------------------------------- schemas whose meaning changes

  function Requires(key: string): Json { Obj([Field("required", Arr([Str(key)]))]) }

  lemma RequiresMeaning(q: Reading, key: string, x: Json)
    ensures RequiredOnly(Requires(key)) && Simple(Requires(key))
    ensures Accepts(q, Requires(key), x) <==> x.Obj? ==> HasKey(x, key)
  {
    var fields := Requires(key).fields;
    assert Lookup(fields, "type").None?;
    KeyIsUnique(fields, fields[0]);
    GuardMeaning(q, Requires(key), x);
    assert StringItems([Str(key)]) == [key];
  }

  /** {"type": "object", "properties": {}, "anyOf": [{"required": ["a"]}]} */
  const NEEDS_A: seq<Field<Json>> :=
    [Field("type", Str("object")), Field("properties", Obj([])), Field("anyOf", Arr([Requires("a")]))]

  const NEEDS_A_AND_B: seq<Field<Json>> := NEEDS_A + [Field("oneOf", Arr([Requires("b")]))]

  lemma NeedsLookup(fields: seq<Field<Json>>)
    requires fields == NEEDS_A || fields == NEEDS_A_AND_B
    ensures DistinctKeys(fields) && Lookup(fields, "type") == Some(Str("object"))
    ensures Lookup(fields, "properties") == Some(Obj([])) && Lookup(fields, "anyOf") == Some(Arr([Requires("a")]))
    ensures fields == NEEDS_A_AND_B ==> Lookup(fields, "oneOf") == Some(Arr([Requires("b")]))
  {
    assert DistinctKeys(fields);
    KeyIsUnique(fields, fields[0]);
    KeyIsUnique(fields, fields[1]);
    KeyIsUnique(fields, fields[2]);
    if fields == NEEDS_A_AND_B { KeyIsUnique(fields, fields[3]); }
  }

  lemma NeedsGuarded(fields: seq<Field<Json>>)
    requires fields == NEEDS_A || fields == NEEDS_A_AND_B
    ensures GuardKey(fields) == Some("anyOf")
  {
    NeedsLookup(fields);
    RequiresMeaning(DataReading(), "a", Null);
    assert IsGuard(Some(Arr([Requires("a")])));
  }

  lemma OneRequired(q: Reading, key: string, x: Json)
    ensures SimpleArray(Arr([Requires(key)]))
    ensures AnyAccepts(q, Arr([Requires(key)]), x) <==> x.Obj? ==> HasKey(x, key)
  {
    var one := Arr([Requires(key)]);
    RequiresMeaning(q, key, x);
    assert one.items[0] == Requires(key);
  }

  lemma UnionIsSimple(key: string, value: Json)
    requires (key == "anyOf" || key == "oneOf") && SimpleArray(value)
    ensures SimpleField(Field(key, value))
  {
  }

  lemma TypeIsSimple()
    ensures SimpleField(Field("type", Str("object"))) && SimpleField(Field("properties", Obj([])))
  {
  }

  lemma NeedsFields(f: Field<Json>)
    requires f in NEEDS_A_AND_B
    ensures || f == Field("type", Str("object")) || f == Field("properties", Obj([]))
            || f == Field("anyOf", Arr([Requires("a")])) || f == Field("oneOf", Arr([Requires("b")]))
  {
  }

  lemma NeedsSimple()
    ensures SimpleParts(Obj(NEEDS_A_AND_B))
  {
    NeedsLookup(NEEDS_A_AND_B);
    forall f | f in NEEDS_A_AND_B
      ensures SimpleField(f)
    {
      NeedsFields(f);
      OneRequired(DataReading(), "a", Null);
      OneRequired(DataReading(), "b", Null);
      TypeIsSimple();
      UnionIsSimple("anyOf", Arr([Requires("a")]));
      UnionIsSimple("oneOf", Arr([Requires("b")]));
    }
  }

  lemma NeedsMeaning(q: Reading, x: Json)
    requires q.asserts("type", Str("object"), x)
    ensures OthersHold(q, NEEDS_A_AND_B, "oneOf", x) <==> x.Obj? ==> HasKey(x, "a")
  {
    var s := Obj(NEEDS_A_AND_B);
    OneRequired(q, "a", x);
    UnionHolds(q, s, s.fields[2], x);
    assert Holds(q, s, s.fields[0], x) && Holds(q, s, s.fields[1], x);
    forall f | f in s.fields
      ensures f.key != "oneOf" ==> f == s.fields[0] || f == s.fields[1] || f == s.fields[2]
    {
      NeedsFields(f);
    }
  }

  /** A schema that requires both "a" and "b" comes out requiring "a" only. */
  lemma SecondKeywordMatters(q: Reading, x: Json)
    requires x.Obj? && q.asserts("type", Str("object"), x)
    ensures Accepts(q, Obj(NEEDS_A_AND_B), x) <==> HasKey(x, "a") && HasKey(x, "b")
    ensures Accepts(q, Expand(Obj(NEEDS_A_AND_B)), x) <==> HasKey(x, "a")
  {
    NeedsLookup(NEEDS_A_AND_B);
    NeedsGuarded(NEEDS_A_AND_B);
    NeedsSimple();
    OneRequired(q, "b", x);
    NeedsMeaning(q, x);
    SecondKeywordIsDropped(q, NEEDS_A_AND_B, "anyOf", Arr([Requires("b")]), x);
  }

  /** The object {"a": null} is one that only the rewritten schema accepts. */
  lemma SecondKeywordVerdictFlips(q: Reading)
    requires q.asserts("type", Str("object"), Obj([Field("a", Null)]))
    ensures var x := Obj([Field("a", Null)]);
      !Accepts(q, Obj(NEEDS_A_AND_B), x) && Accepts(q, Expand(Obj(NEEDS_A_AND_B)), x)
  {
    var x := Obj([Field("a", Null)]);
    SecondKeywordMatters(q, x);
    assert x.fields[0] in x.fields;
  }

  /** const and enum read as they are meant: the instance is the value, or one of the values. */
  function DataReading(): Reading {
    Reading((key: string, value: Json, x: Json) =>
              (key == "const" ==> x == value) && (key == "enum" && value.Arr? ==> x in value.items),
            (pattern: string, key: string) => false)
  }

  lemma OneKeyword(q: Reading, f: Field<Json>, x: Json)
    requires f.key == "const" || f.key == "enum"
    ensures Expand(Obj([f])) == Obj([Field(f.key, Expand(f.value))])
    ensures Accepts(q, Obj([f]), x) == q.asserts(f.key, f.value, x)
  {
    var out := [Field(f.key, Expand(f.value))];
    assert Lookup(out, "type").None?;
    assert ExpandFields([f]) == out;
    assert Holds(q, Obj([f]), f, x) == q.asserts(f.key, f.value, x);
  }

  /** The verdicts of a const survive the rewriting exactly when its value has no guard at any depth. */
  lemma ConstDataIsRewritten(value: Json)
    ensures var s := Obj([Field("const", value)]);
      (forall x :: Accepts(DataReading(), Expand(s), x) <==> Accepts(DataReading(), s, x)) <==> NoGuards(value)
  {
    var s, q := Obj([Field("const", value)]), DataReading();
    forall x | true
      ensures Accepts(q, s, x) <==> x == value
      ensures Accepts(q, Expand(s), x) <==> x == Expand(value)
    {
      OneKeyword(q, Field("const", value), x);
      OneKeyword(q, Field("const", Expand(value)), x);
    }
    ExpandLeaves(value);
    assert Accepts(q, s, value);
  }

  lemma EnumReads(values: seq<Json>, x: Json)
    ensures var s := Obj([Field("enum", Arr(values))]);
      (Accepts(DataReading(), s, x) <==> x in values)
      && (Accepts(DataReading(), Expand(s), x) <==> x in ExpandItems(values))
  {
    OneKeyword(DataReading(), Field("enum", Arr(values)), x);
    OneKeyword(DataReading(), Field("enum", Expand(Arr(values))), x);
  }

  /** And those of an enum exactly when none of its values has one. */
  lemma EnumDataIsRewritten(values: seq<Json>)
    ensures var s := Obj([Field("enum", Arr(values))]);
      (forall x :: Accepts(DataReading(), Expand(s), x) <==> Accepts(DataReading(), s, x)) <==> NoGuards(Arr(values))
  {
    if k :| 0 <= k < |values| && !NoGuards(values[k]) {
      ExpandLeaves(values[k]);
      NotExpanded(values, values[k]);
      EnumReads(values, values[k]);
    } else {
      ExpandLeaves(Arr(values));
      forall x | true { EnumReads(values, x); }
    }
  }

  /** A value that expansion changes is not what anything expands to. */
  lemma NotExpanded(values: seq<Json>, v: Json)
    requires Expand(v) != v
    ensures v !in ExpandItems(values)
  {
    forall i | 0 <= i < |values|
      ensures Expand(values[i]) != v
    {
      ExpandTwice(values[i]);
    }
  }

  /** So a const whose value reads like a guarded schema rejects that very value once rewritten. */
  lemma ConstVerdictFlips()
    ensures var s := Obj([Field("const", Obj(NEEDS_A))]);
      Accepts(DataReading(), s, Obj(NEEDS_A)) && !Accepts(DataReading(), Expand(s), Obj(NEEDS_A))
  {
    var value, q := Obj(NEEDS_A), DataReading();
    NeedsGuarded(NEEDS_A);
    ExpandLeaves(value);
    OneKeyword(q, Field("const", value), value);
    OneKeyword(q, Field("const", Expand(value)), value);
  }
}
