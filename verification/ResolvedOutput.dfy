/** What resolved schemas look like: never an $id key, local references except in one exactly
    described case, and nothing left to resolve. */
module ResolvedOutput {
  import opened Common
  import opened Json
  import opened ResolveRefs
  import opened Directories

  /** No $id key at any depth. */
  ghost predicate NoIds(v: Json) {
    match v
    case Arr(items) => forall i :: 0 <= i < |items| ==> NoIds(items[i])
    case Obj(fields) => FieldsNoIds(fields)
    case _ => true
  }

  ghost predicate FieldsNoIds(fields: seq<Field<Json>>) {
    forall i :: 0 <= i < |fields| ==> fields[i].key != "$id" && NoIds(fields[i].value)
  }

  /** Every string $ref, at any depth, is local. */
  ghost predicate LocalRefs(v: Json) {
    match v
    case Arr(items) => ItemsLocal(items)
    case Obj(fields) => FieldsLocal(fields)
    case _ => true
  }

  ghost predicate ItemsLocal(items: seq<Json>) { forall i :: 0 <= i < |items| ==> LocalRefs(items[i]) }

  ghost predicate FieldsLocal(fields: seq<Field<Json>>) {
    forall i :: 0 <= i < |fields| ==>
      && (fields[i].key == "$ref" && fields[i].value.Str? ==> "#" <= fields[i].value.text)
      && LocalRefs(fields[i].value)
  }

  // ---------------------------------------------------------------- no $id

  ghost predicate NoIdsIn(o: Outcome) { o.Done? && o.value.Some? ==> NoIds(o.value.value) }

  /** Whatever the input, no $id key comes out. */
  lemma {:induction false} ResolvedHasNoIds(c: Corpus, fuel: nat, v: Json, file: string)
    requires Indexed(c)
    ensures NoIdsIn(Resolve(c, fuel, v, file))
    decreases fuel, v
  {
    match v {
      case Arr(items) => ItemsHaveNoIds(c, fuel, items, file, []);
      case Obj(fields) => FieldsHaveNoIds(c, fuel, fields, file, []);
      case _ =>
    }
  }

  lemma {:induction false} ItemsHaveNoIds(c: Corpus, fuel: nat, items: seq<Json>, file: string, done: seq<Json>)
    requires Indexed(c) && forall i :: 0 <= i < |done| ==> NoIds(done[i])
    ensures NoIdsIn(ResolveItems(c, fuel, items, file, done))
    decreases fuel, items
  {
    if items != [] {
      ResolvedHasNoIds(c, fuel, items[0], file);
      var r := Resolve(c, fuel, items[0], file);
      if r.Done? {
        ItemsHaveNoIds(c, fuel, items[1..], file, done + [if r.value.Some? then r.value.value else Json.Null]);
      }
    }
  }

  lemma {:induction false} FieldsHaveNoIds(
      c: Corpus, fuel: nat, fields: seq<Field<Json>>, file: string, done: seq<Field<Json>>)
    requires Indexed(c) && FieldsNoIds(done)
    ensures NoIdsIn(ResolveFields(c, fuel, fields, file, done))
    decreases fuel, fields
  {
    if fields != [] {
      var f, rest := fields[0], fields[1..];
      if f.key == "$id" {
        FieldsHaveNoIds(c, fuel, rest, file, done);
      } else if IsRef(f) && Local(f.value.text) {
        FieldsHaveNoIds(c, fuel, rest, file, done + [f]);
      } else if IsRef(f) {
        var t := TargetOf(c, f.value.text, file);
        if t.Self? {
          FieldsHaveNoIds(c, fuel, rest, file, done + [Field("$ref", Str(t.ref))]);
        } else if t.Other? && fuel > 0 && t.target.Some? {
          ResolvedHasNoIds(c, fuel - 1, t.target.value, t.file);
        }
      } else {
        ResolvedHasNoIds(c, fuel, f.value, file);
        var r := Resolve(c, fuel, f.value, file);
        if r.Done? {
          FieldsHaveNoIds(c, fuel, rest, file, if r.value.Some? then done + [Field(f.key, r.value.value)] else done);
        }
      }
    }
  }

  // ---------------------------------------------------------------- where a foreign $ref can remain

  /** The first reference of an object that leads to another file: it replaces the object. */
  function Foreign(c: Corpus, fields: seq<Field<Json>>, file: string): Option<(string, Option<Json>)>
    requires Indexed(c)
  {
    if fields == [] then None
    else
      var f := fields[0];
      if IsRef(f) && !Local(f.value.text) && TargetOf(c, f.value.text, file).Other? then
        var t := TargetOf(c, f.value.text, file); Some((t.file, t.target))
      else Foreign(c, fields[1..], file)
  }

  /** The string at the end of a chain of references to other files, if it ends in one. */
  function LeadsTo(c: Corpus, fuel: nat, v: Json, file: string): Option<string>
    requires Indexed(c)
    decreases fuel
  {
    match v
    case Str(s) => Some(s)
    case Obj(fields) =>
      var t := Foreign(c, fields, file);
      if t.Some? && t.value.1.Some? && fuel > 0 then LeadsTo(c, fuel - 1, t.value.1.value, t.value.0) else None
    case _ => None
  }

  /** Somewhere on the way a key "$ref" holds no string, but leads to one that is not local. */
  predicate Leak(c: Corpus, fuel: nat, v: Json, file: string)
    requires Indexed(c)
    decreases fuel, v, 1
  {
    match v
    case Arr(items) => ItemsLeak(c, fuel, items, file)
    case Obj(fields) =>
      var t := Foreign(c, fields, file);
      if t.Some? then t.value.1.Some? && fuel > 0 && Leak(c, fuel - 1, t.value.1.value, t.value.0)
      else FieldsLeak(c, fuel, fields, file)
    case _ => false
  }

  predicate ItemsLeak(c: Corpus, fuel: nat, items: seq<Json>, file: string)
    requires Indexed(c)
    decreases fuel, items, 1
  {
    exists i :: 0 <= i < |items| && Leak(c, fuel, items[i], file)
  }

  predicate FieldsLeak(c: Corpus, fuel: nat, fields: seq<Field<Json>>, file: string)
    requires Indexed(c)
    decreases fuel, fields, 1
  {
    exists i :: 0 <= i < |fields| && LeakAt(c, fuel, fields, i, file)
  }

  predicate LeakAt(c: Corpus, fuel: nat, fields: seq<Field<Json>>, i: nat, file: string)
    requires Indexed(c) && i < |fields|
    decreases fuel, fields, 0
  {
    var f := fields[i];
    && f.key != "$id" && !IsRef(f)
    && (Leak(c, fuel, f.value, file) || (f.key == "$ref" && LeadsToForeign(c, fuel, f.value, file)))
  }

  predicate LeadsToForeign(c: Corpus, fuel: nat, v: Json, file: string)
    requires Indexed(c)
  {
    var s := LeadsTo(c, fuel, v, file); s.Some? && !Local(s.value)
  }

  /** What Leak and LeadsTo say of an outcome. */
  ghost predicate Predicts(c: Corpus, fuel: nat, v: Json, file: string, out: Option<Json>)
    requires Indexed(c)
  {
    match out
    case None => !Leak(c, fuel, v, file) && LeadsTo(c, fuel, v, file) == None
    case Some(r) =>
      && (LocalRefs(r) <==> !Leak(c, fuel, v, file))
      && LeadsTo(c, fuel, v, file) == if r.Str? then Some(r.text) else None
  }

  lemma ItemsLeakStep(c: Corpus, fuel: nat, items: seq<Json>, file: string)
    requires Indexed(c) && items != []
    ensures ItemsLeak(c, fuel, items, file) <==>
      Leak(c, fuel, items[0], file) || ItemsLeak(c, fuel, items[1..], file)
  {
    var rest := items[1..];
    assert forall i :: 0 < i < |items| ==> items[i] == rest[i - 1];
    assert forall i :: 0 <= i < |rest| ==> rest[i] == items[i + 1];
  }

  lemma FieldsLeakStep(c: Corpus, fuel: nat, fields: seq<Field<Json>>, file: string)
    requires Indexed(c) && fields != []
    ensures FieldsLeak(c, fuel, fields, file) <==>
      LeakAt(c, fuel, fields, 0, file) || FieldsLeak(c, fuel, fields[1..], file)
  {
    var rest := fields[1..];
    forall i | 0 <= i < |rest|
      ensures LeakAt(c, fuel, fields, i + 1, file) == LeakAt(c, fuel, rest, i, file)
    {
      assert rest[i] == fields[i + 1];
    }
    assert FieldsLeak(c, fuel, rest, file) <==> exists i :: 0 <= i < |rest| && LeakAt(c, fuel, rest, i, file);
    assert FieldsLeak(c, fuel, fields, file) <==> exists i :: 0 <= i < |fields| && LeakAt(c, fuel, fields, i, file);
    if i :| 0 <= i < |fields| && LeakAt(c, fuel, fields, i, file) {
      assert i > 0 ==> LeakAt(c, fuel, rest, i - 1, file);
    }
    if i :| 0 <= i < |rest| && LeakAt(c, fuel, rest, i, file) {
      assert LeakAt(c, fuel, fields, i + 1, file);
    }
  }

  lemma {:induction false} OutcomePredicted(c: Corpus, fuel: nat, v: Json, file: string)
    requires Indexed(c) && Resolve(c, fuel, v, file).Done?
    ensures Predicts(c, fuel, v, file, Resolve(c, fuel, v, file).value)
    decreases fuel, v, 2
  {
    match v {
      case Arr(items) => ItemsPredicted(c, fuel, items, file, []);
      case Obj(fields) =>
        FieldsPredicted(c, fuel, fields, file, []);
        var t := Foreign(c, fields, file);
        if t.Some? && t.value.1.Some? { OutcomePredicted(c, fuel - 1, t.value.1.value, t.value.0); }
      case _ =>
    }
  }

  lemma {:induction false} ItemsPredicted(c: Corpus, fuel: nat, items: seq<Json>, file: string, done: seq<Json>)
    requires Indexed(c) && ResolveItems(c, fuel, items, file, done).Done?
    ensures var out := ResolveItems(c, fuel, items, file, done).value;
      && out.Some? && out.value.Arr?
      && (ItemsLocal(out.value.items) <==> ItemsLocal(done) && !ItemsLeak(c, fuel, items, file))
    decreases fuel, items, 1
  {
    if items != [] {
      ItemsLeakStep(c, fuel, items, file);
      OutcomePredicted(c, fuel, items[0], file);
      var t := Resolve(c, fuel, items[0], file).value;
      var more := if t.Some? then t.value else Json.Null;
      assert ItemsLocal(done + [more]) <==> ItemsLocal(done) && LocalRefs(more) by { OneMoreItem(done, more); }
      ItemsPredicted(c, fuel, items[1..], file, done + [more]);
    }
  }

  lemma OneMoreItem(done: seq<Json>, item: Json)
    ensures ItemsLocal(done + [item]) <==> ItemsLocal(done) && LocalRefs(item)
  {
    var more := done + [item];
    assert more[|done|] == item && forall i :: 0 <= i < |done| ==> more[i] == done[i];
  }

  lemma OneMoreField(done: seq<Field<Json>>, f: Field<Json>)
    ensures FieldsLocal(done + [f]) <==>
      FieldsLocal(done) && (IsRef(f) ==> Local(f.value.text)) && LocalRefs(f.value)
  {
    var more := done + [f];
    assert more[|done|] == f && forall i :: 0 <= i < |done| ==> more[i] == done[i];
  }

  /** An object is replaced by what its first foreign reference leads to, or keeps its fields, which
      are local exactly when none of them leaks. */
  lemma {:induction false} FieldsPredicted(
      c: Corpus, fuel: nat, fields: seq<Field<Json>>, file: string, done: seq<Field<Json>>)
    requires Indexed(c) && ResolveFields(c, fuel, fields, file, done).Done?
    ensures var out, t := ResolveFields(c, fuel, fields, file, done), Foreign(c, fields, file);
      if t.Some? then fuel > 0 && out == Enter(c, fuel - 1, t.value.1, t.value.0)
      else && out.value.Some? && out.value.value.Obj?
           && (FieldsLocal(out.value.value.fields) <==> FieldsLocal(done) && !FieldsLeak(c, fuel, fields, file))
    decreases fuel, fields, 1
  {
    if fields != [] {
      var f, rest := fields[0], fields[1..];
      FieldsLeakStep(c, fuel, fields, file);
      if f.key == "$id" {
        FieldsPredicted(c, fuel, rest, file, done);
      } else if IsRef(f) {
        RefPredicted(c, fuel, fields, file, done);
      } else {
        OutcomePredicted(c, fuel, f.value, file);
        var t := Resolve(c, fuel, f.value, file).value;
        var more := if t.Some? then done + [Field(f.key, t.value)] else done;
        if t.Some? { OneMoreField(done, Field(f.key, t.value)); }
        FieldsPredicted(c, fuel, rest, file, more);
      }
    }
  }

  lemma {:induction false} RefPredicted(
      c: Corpus, fuel: nat, fields: seq<Field<Json>>, file: string, done: seq<Field<Json>>)
    requires Indexed(c) && ResolveFields(c, fuel, fields, file, done).Done? && fields != [] && IsRef(fields[0])
    ensures var out, t := ResolveFields(c, fuel, fields, file, done), Foreign(c, fields, file);
      if t.Some? then fuel > 0 && out == Enter(c, fuel - 1, t.value.1, t.value.0)
      else && out.value.Some? && out.value.value.Obj?
           && (FieldsLocal(out.value.value.fields) <==> FieldsLocal(done) && !FieldsLeak(c, fuel, fields, file))
    decreases fuel, fields, 0
  {
    var f, rest := fields[0], fields[1..];
    FieldsLeakStep(c, fuel, fields, file);
    if Local(f.value.text) {
      OneMoreField(done, f);
      FieldsPredicted(c, fuel, rest, file, done + [f]);
    } else {
      var t := TargetOf(c, f.value.text, file);
      if t.Self? {
        OneMoreField(done, Field("$ref", Str(t.ref)));
        FieldsPredicted(c, fuel, rest, file, done + [Field("$ref", Str(t.ref))]);
      }
    }
  }

  /** A resolved schema has no $id key; and every string $ref in it is local exactly when no "$ref"
      key reached on the way holds something else that leads to a string which is not local. */
  lemma ResolvedIsClean(c: Corpus, fuel: nat, v: Json, file: string, r: Json)
    requires Indexed(c) && Resolve(c, fuel, v, file) == Done(Some(r))
    ensures NoIds(r)
    ensures LocalRefs(r) <==> !Leak(c, fuel, v, file)
  {
    ResolvedHasNoIds(c, fuel, v, file);
    OutcomePredicted(c, fuel, v, file);
  }

  // ---------------------------------------------------------------- resolving again

  /** A clean schema is left exactly as it is, whatever the corpus. */
  lemma {:induction false} CleanIsKept(c: Corpus, fuel: nat, v: Json, file: string)
    requires Indexed(c) && NoIds(v) && LocalRefs(v)
    ensures Resolve(c, fuel, v, file) == Done(Some(v))
    decreases v
  {
    match v {
      case Arr(items) =>
        assert [] + items == items;
        CleanItemsKept(c, fuel, items, file, []);
      case Obj(fields) =>
        assert [] + fields == fields;
        CleanFieldsKept(c, fuel, fields, file, []);
      case _ =>
    }
  }

  lemma {:induction false} CleanItemsKept(c: Corpus, fuel: nat, items: seq<Json>, file: string, done: seq<Json>)
    requires Indexed(c) && ItemsLocal(items) && forall i :: 0 <= i < |items| ==> NoIds(items[i])
    ensures ResolveItems(c, fuel, items, file, done) == Done(Some(Arr(done + items)))
    decreases items
  {
    if items == [] {
      assert done + items == done;
    } else {
      CleanIsKept(c, fuel, items[0], file);
      CleanItemsKept(c, fuel, items[1..], file, done + [items[0]]);
      assert done + items == done + [items[0]] + items[1..];
    }
  }

  lemma {:induction false} CleanFieldsKept(
      c: Corpus, fuel: nat, fields: seq<Field<Json>>, file: string, done: seq<Field<Json>>)
    requires Indexed(c) && FieldsNoIds(fields) && FieldsLocal(fields)
    ensures ResolveFields(c, fuel, fields, file, done) == Done(Some(Obj(done + fields)))
    decreases fields
  {
    if fields == [] {
      assert done + fields == done;
    } else {
      if !IsRef(fields[0]) { CleanIsKept(c, fuel, fields[0].value, file); }
      assert Field(fields[0].key, fields[0].value) == fields[0];
      CleanFieldsKept(c, fuel, fields[1..], file, done + [fields[0]]);
      assert done + fields == done + [fields[0]] + fields[1..];
    }
  }

  /** Without any known $id a schema resolves only if all its references are local. */
  lemma {:induction false} OnlyLocalResolve(c: Corpus, v: Json, file: string)
    requires Indexed(c) && c.ids == map[] && Resolve(c, 0, v, file).Done? && NoIds(v)
    ensures LocalRefs(v)
  {
    match v {
      case Arr(items) => OnlyLocalItems(c, items, file, []);
      case Obj(fields) => OnlyLocalFields(c, fields, file, []);
      case _ =>
    }
  }

  lemma {:induction false} OnlyLocalItems(c: Corpus, items: seq<Json>, file: string, done: seq<Json>)
    requires Indexed(c) && c.ids == map[] && ResolveItems(c, 0, items, file, done).Done?
    requires forall i :: 0 <= i < |items| ==> NoIds(items[i])
    ensures ItemsLocal(items)
  {
    if items != [] {
      OnlyLocalResolve(c, items[0], file);
      var t := Resolve(c, 0, items[0], file).value;
      OnlyLocalItems(c, items[1..], file, done + [if t.Some? then t.value else Json.Null]);
      assert items == [items[0]] + items[1..];
    }
  }

  lemma {:induction false} OnlyLocalFields(c: Corpus, fields: seq<Field<Json>>, file: string, done: seq<Field<Json>>)
    requires Indexed(c) && c.ids == map[] && ResolveFields(c, 0, fields, file, done).Done? && FieldsNoIds(fields)
    ensures FieldsLocal(fields)
  {
    if fields != [] {
      var f, rest := fields[0], fields[1..];
      if IsRef(f) {
        OnlyLocalFields(c, rest, file, done + [f]);
      } else {
        OnlyLocalResolve(c, f.value, file);
        var t := Resolve(c, 0, f.value, file).value;
        OnlyLocalFields(c, rest, file, if t.Some? then done + [Field(f.key, t.value)] else done);
      }
      assert fields == [f] + rest;
    }
  }

  /** Resolving again, in whatever corpus and from whatever file, leaves the schema as it is. */
  ghost predicate Settled(r: Json) {
    forall c, fuel: nat, file :: Indexed(c) ==> Resolve(c, fuel, r, file) == Done(Some(r))
  }

  /** What has been resolved is settled exactly when nothing leaked. */
  lemma ResolveTwice(c: Corpus, fuel: nat, v: Json, file: string, r: Json)
    requires Indexed(c) && Resolve(c, fuel, v, file) == Done(Some(r))
    ensures Settled(r) <==> !Leak(c, fuel, v, file)
  {
    ResolvedIsClean(c, fuel, v, file, r);
    if LocalRefs(r) {
      forall c: Corpus, fuel: nat, file | Indexed(c)
        ensures Resolve(c, fuel, r, file) == Done(Some(r))
      {
        CleanIsKept(c, fuel, r, file);
      }
    } else if Settled(r) {
      var none := Corpus(map[], map[]);
      assert Resolve(none, 0, r, file) == Done(Some(r));
      OnlyLocalResolve(none, r, file);
    }
  }

  // ---------------------------------------------------------------- a directory that leaks

  /** a holds a reference to a string of b below a key "$ref". */
  const NESTED := Obj([Field("$ref", Obj([Field("$ref", Str("b#/t"))]))])

  const TITLED := Obj([Field("$id", Str("b")), Field("t", Str("x"))])

  const NESTED_IDS: map<string, string> := map["b" := "b.schema.json"]

  function Nested(): Corpus { CorpusOf(NESTED, TITLED, NESTED_IDS) }

  lemma NestedBuilt()
    ensures Built(Nested(), Directory(NESTED, TITLED)) && Indexed(Nested())
  {
    assert IdOf(NESTED) == "" && IdOf(TITLED) == "b";
    forall id
      ensures id != "" ==> (FileWithId(Directory(NESTED, TITLED), id).Some? <==> id == "b")
      ensures id == "b" ==> FileWithId(Directory(NESTED, TITLED), id) == Some("b.schema.json")
    {
      DirectoryIds(NESTED, TITLED, id);
    }
    DirectoryBuilt(NESTED, TITLED, NESTED_IDS);
  }

  lemma NestedTarget()
    requires Indexed(Nested())
    ensures TargetOf(Nested(), "b#/t", "a.schema.json") == Other("b.schema.json", Some(Str("x")))
  {
    ReferenceToT("b#/t", "b");
    assert TITLED.fields[1..][0] == TITLED.fields[1] && Lookup(TITLED.fields, "t") == Some(Str("x"));
  }

  /** The exception is real: this directory leaves a reference that is not local, and it leaks. */
  lemma NestedRefIsNotClean(fuel: nat)
    requires fuel > 0
    ensures Built(Nested(), Directory(NESTED, TITLED)) && Indexed(Nested())
    ensures Resolve(Nested(), fuel, NESTED, "a.schema.json") == Done(Some(Obj([Field("$ref", Str("x"))])))
    ensures !LocalRefs(Obj([Field("$ref", Str("x"))])) && Leak(Nested(), fuel, NESTED, "a.schema.json")
  {
    NestedBuilt();
    NestedTarget();
    var inner, out := Obj([Field("$ref", Str("b#/t"))]), [Field("$ref", Str("x"))];
    OneReference(Nested(), fuel, "b#/t", "a.schema.json", "b.schema.json", Str("x"));
    assert |"$ref"| == 4 && |"$id"| == 3;
    OneField(Nested(), fuel, Field("$ref", inner), "a.schema.json");
    assert IsRef(out[0]) && !Local(out[0].value.text) && !FieldsLocal(out);
    ResolvedIsClean(Nested(), fuel, NESTED, "a.schema.json", Obj(out));
  }
}
