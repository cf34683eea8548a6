/** Inlining references between schema files, so that every written schema stands alone.

    References that lead back to themselves make the program recurse forever; here `fuel` bounds the
    number of files entered, and TooDeep is the outcome when it runs out. */
module ResolveRefs {
  import opened Common
  import opened Json

  /** The schema files in directory order. */
  datatype Corpus = Corpus(files: map<string, Json>, ids: map<string, string>)

  /** An undefined value is Done(None): it is dropped from objects and written as null in arrays. */
  datatype Outcome = Done(value: Option<Json>) | Failed(message: string) | TooDeep

  // ---------------------------------------------------------------- which file has which $id

  function IdOf(schema: Json): string {
    if !schema.Obj? then ""
    else
      var id := Lookup(schema.fields, "$id");
      if id.Some? && id.value.Str? then id.value.text else ""
  }

  /** The last file with the id, if any. */
  function FileWithId(files: seq<(string, Json)>, id: string): Option<string> {
    if files == [] then None
    else if IdOf(files[|files| - 1].1) == id then Some(files[|files| - 1].0)
    else FileWithId(files[..|files| - 1], id)
  }

  /** Every non-empty $id is mapped to the last file that declares it, and nothing else is mapped. */
  ghost predicate IndexOf(files: seq<(string, Json)>, ids: map<string, string>) {
    && (forall id :: id in ids <==> id != "" && FileWithId(files, id).Some?)
    && (forall id :: id in ids ==> FileWithId(files, id) == Some(ids[id]))
  }

  method IdToFile(files: seq<(string, Json)>) returns (ids: map<string, string>)
    ensures IndexOf(files, ids)
  {
    ids := map[];
    for n := 0 to |files|
      invariant IndexOf(files[..n], ids)
    {
      assert files[..n + 1][..n] == files[..n];
      var id := IdOf(files[n].1);
      if id != "" { ids := ids[id := files[n].0]; }
    }
    assert files[..|files|] == files;
  }

  /** The corpus of a directory: its files, and the ids they declare. */
  ghost predicate Built(c: Corpus, files: seq<(string, Json)>) {
    && (forall i, k :: 0 <= i < k < |files| ==> files[i].0 != files[k].0)
    && c.files.Keys == (set i | 0 <= i < |files| :: files[i].0)
    && (forall i :: 0 <= i < |files| ==> files[i].0 in c.files && c.files[files[i].0] == files[i].1)
    && IndexOf(files, c.ids)
  }

  lemma {:induction false} FileFound(files: seq<(string, Json)>, id: string) returns (i: nat)
    requires FileWithId(files, id).Some?
    ensures i < |files| && files[i].0 == FileWithId(files, id).value && IdOf(files[i].1) == id
  {
    var n := |files| - 1;
    if IdOf(files[n].1) == id { i := n; } else { i := FileFound(files[..n], id); }
  }

  /** The corpus of a directory only ever leads to its own files. */
  lemma BuiltIsIndexed(c: Corpus, files: seq<(string, Json)>)
    requires Built(c, files)
    ensures Indexed(c)
  {
    forall id | id in c.ids
      ensures c.ids[id] in c.files
    {
      var i := FileFound(files, id);
    }
  }

  ghost predicate Indexed(c: Corpus) { forall id :: id in c.ids ==> c.ids[id] in c.files }

  // ---------------------------------------------------------------- one reference

  predicate Local(ref: string) { ref != [] && ref[0] == '#' }

  function UpTo(s: string, c: char): (n: nat)
    ensures n <= |s| && (n < |s| ==> s[n] == c) && forall i :: 0 <= i < n ==> s[i] != c
  {
    if s == [] || s[0] == c then 0 else 1 + UpTo(s[1..], c)
  }

  function Base(ref: string): string { ref[..UpTo(ref, '#')] }

  /** The text between the first and the second '#'; empty when there is none. */
  function Fragment(ref: string): string {
    var n := UpTo(ref, '#');
    if n == |ref| then [] else ref[n + 1..][..UpTo(ref[n + 1..], '#')]
  }

  function Split(s: string): seq<string>
    decreases |s|
  {
    var n := UpTo(s, '/');
    if n == |s| then [s] else [s[..n]] + Split(s[n + 1..])
  }

  function Parts(fragment: string): seq<string> {
    Split(if fragment != [] && fragment[0] == '/' then fragment[1..] else fragment)
  }

  /** A reference is read as a file, up to the first '#', and a pointer after it. */
  lemma {:induction false} ReferenceRead(base: string, pointer: string)
    requires (forall i :: 0 <= i < |base| ==> base[i] != '#') && (forall i :: 0 <= i < |pointer| ==> pointer[i] != '#')
    ensures Base(base) == base && Fragment(base) == []
    ensures Base(base + "#" + pointer) == base && Fragment(base + "#" + pointer) == pointer
  {
    var ref := base + "#" + pointer;
    assert ref[|base|] == '#' && forall i :: 0 <= i < |base| ==> ref[i] == base[i];
    assert UpTo(ref, '#') == |base| && ref[|base| + 1..] == pointer;
    assert UpTo(pointer, '#') == |pointer| && pointer[..|pointer|] == pointer;
  }

  /** Names joined into a pointer. */
  function PointerOf(names: seq<string>): string {
    if names == [] then "" else "/" + names[0] + PointerOf(names[1..])
  }

  ghost predicate NoSlash(names: seq<string>) {
    forall n, i :: n in names && 0 <= i < |n| ==> n[i] != '/'
  }

  lemma PointerCons(name: string, more: seq<string>)
    ensures PointerOf([name] + more) == "/" + (name + PointerOf(more))
  {
    assert ([name] + more)[1..] == more;
    ConcatAssoc("/", name, PointerOf(more));
  }

  /** And the pointer as the names between its slashes. */
  lemma PointerRead(names: seq<string>)
    requires names != [] && NoSlash(names)
    ensures Parts(PointerOf(names)) == names
  {
    var name, more := names[0], names[1..];
    assert names == [name] + more;
    PointerCons(name, more);
    var rest := name + PointerOf(more);
    assert ("/" + rest)[1..] == rest;
    SplitRead(name, more);
  }

  lemma {:induction false} SplitRead(name: string, more: seq<string>)
    requires (forall i :: 0 <= i < |name| ==> name[i] != '/') && NoSlash(more)
    ensures Split(name + PointerOf(more)) == [name] + more
    decreases |more|
  {
    if more == [] {
      assert name + PointerOf(more) == name;
      UpToIs(name, |name|);
    } else {
      var next, rest := more[0], more[1..];
      assert more == [next] + rest && next in more;
      PointerCons(next, rest);
      var tail := next + PointerOf(rest);
      SplitFirst(name, tail);
      SplitRead(next, rest);
    }
  }

  lemma UpToIs(s: string, n: nat)
    requires n <= |s| && (n < |s| ==> s[n] == '/') && forall i :: 0 <= i < n ==> s[i] != '/'
    ensures UpTo(s, '/') == n
  {
  }

  lemma SplitFirst(name: string, tail: string)
    requires forall i :: 0 <= i < |name| ==> name[i] != '/'
    ensures Split(name + ("/" + tail)) == [name] + Split(tail)
  {
    var s := name + ("/" + tail);
    UpToIs(s, |name|);
    assert s[..|name|] == name && s[|name| + 1..] == tail;
  }

  /** A reference to the file itself becomes the pointer alone, or "#". */
  lemma SelfReference(c: Corpus, file: string, base: string, pointer: string)
    requires Indexed(c) && base in c.ids && c.ids[base] == file
    requires (forall i :: 0 <= i < |base| ==> base[i] != '#') && (forall i :: 0 <= i < |pointer| ==> pointer[i] != '#')
    ensures TargetOf(c, base, file) == Self("#") && TargetOf(c, base + "#" + pointer, file) == Self("#" + pointer)
  {
    ReferenceRead(base, pointer);
  }

  /** A reference to another file leads to the file, or to what its pointer names in it. */
  lemma OtherReference(c: Corpus, file: string, base: string, names: seq<string>)
    requires Indexed(c) && base in c.ids && c.ids[base] != file && names != [] && NoSlash(names)
    requires (forall i :: 0 <= i < |base| ==> base[i] != '#')
    requires forall i :: 0 <= i < |PointerOf(names)| ==> PointerOf(names)[i] != '#'
    ensures TargetOf(c, base, file) == Other(c.ids[base], Some(c.files[c.ids[base]]))
    ensures var r := Navigate(Some(c.files[c.ids[base]]), names);
      TargetOf(c, base + "#" + PointerOf(names), file) == if r.Err? then Broken else Other(c.ids[base], r.value)
  {
    ReferenceRead(base, PointerOf(names));
    PointerRead(names);
  }

  /** Following a pointer; a missing last step yields undefined, any other wrong step fails. */
  function Navigate(target: Option<Json>, parts: seq<string>): Result<Option<Json>>
    decreases |parts|
  {
    if parts == [] then Ok(target)
    else if target.None? || !target.value.Obj? then Err("Cannot resolve fragment")
    else Navigate(Lookup(target.value.fields, parts[0]), parts[1..])
  }

  datatype Target = Unknown | Self(ref: string) | Broken | Other(file: string, target: Option<Json>)

  /** Where a non-local reference leads, seen from a file. */
  function TargetOf(c: Corpus, ref: string, file: string): Target
    requires Indexed(c)
  {
    var base, fragment := Base(ref), Fragment(ref);
    if base !in c.ids then Unknown
    else if c.ids[base] == file then Self(['#'] + fragment)
    else
      var schema := c.files[c.ids[base]];
      match Navigate(Some(schema), if fragment == [] then [] else Parts(fragment))
      case Err(_) => Broken
      case Ok(t) => Other(c.ids[base], t)
  }

  // ---------------------------------------------------------------- resolving

  predicate IsRef(f: Field<Json>) { f.key == "$ref" && f.value.Str? }

  function Resolve(c: Corpus, fuel: nat, v: Json, file: string): Outcome
    requires Indexed(c)
    decreases fuel, v
  {
    match v
    case Arr(items) => ResolveItems(c, fuel, items, file, [])
    case Obj(fields) => ResolveFields(c, fuel, fields, file, [])
    case _ => Done(Some(v))
  }

  function ResolveItems(c: Corpus, fuel: nat, items: seq<Json>, file: string, done: seq<Json>): Outcome
    requires Indexed(c)
    decreases fuel, items
  {
    if items == [] then Done(Some(Arr(done)))
    else
      match Resolve(c, fuel, items[0], file)
      case Done(t) => ResolveItems(c, fuel, items[1..], file, done + [if t.Some? then t.value else Json.Null])
      case other => other
  }

  /** The fields in order; the first reference to another file replaces the whole object. */
  function ResolveFields(c: Corpus, fuel: nat, fields: seq<Field<Json>>, file: string, done: seq<Field<Json>>): Outcome
    requires Indexed(c)
    decreases fuel, fields
  {
    if fields == [] then Done(Some(Obj(done)))
    else
      var f, rest := fields[0], fields[1..];
      if f.key == "$id" then ResolveFields(c, fuel, rest, file, done)
      else if IsRef(f) && Local(f.value.text) then ResolveFields(c, fuel, rest, file, done + [f])
      else if IsRef(f) then
        match TargetOf(c, f.value.text, file)
        case Unknown => Failed("no local schema has this $id")
        case Broken => Failed("Cannot resolve fragment")
        case Self(ref) => ResolveFields(c, fuel, rest, file, done + [Field("$ref", Str(ref))])
        case Other(there, target) => if fuel == 0 then TooDeep else Enter(c, fuel - 1, target, there)
      else
        match Resolve(c, fuel, f.value, file)
        case Done(t) =>
          ResolveFields(c, fuel, rest, file, if t.Some? then done + [Field(f.key, t.value)] else done)
        case other => other
  }

  /** Going on in another file. */
  function Enter(c: Corpus, fuel: nat, target: Option<Json>, file: string): Outcome
    requires Indexed(c)
    decreases fuel
  {
    if target.None? then Done(None) else Resolve(c, fuel, target.value, file)
  }

  // ---------------------------------------------------------------- enough fuel

  /** More fuel never changes an outcome. */
  lemma {:induction false} FuelIsMonotone(c: Corpus, fuel: nat, more: nat, v: Json, file: string)
    requires Indexed(c) && fuel <= more && Resolve(c, fuel, v, file) != TooDeep
    ensures Resolve(c, more, v, file) == Resolve(c, fuel, v, file)
    decreases fuel, v
  {
    match v {
      case Arr(items) => ItemsMonotone(c, fuel, more, items, file, []);
      case Obj(fields) => FieldsMonotone(c, fuel, more, fields, file, []);
      case _ =>
    }
  }

  lemma {:induction false} ItemsMonotone(
      c: Corpus, fuel: nat, more: nat, items: seq<Json>, file: string, done: seq<Json>)
    requires Indexed(c) && fuel <= more && ResolveItems(c, fuel, items, file, done) != TooDeep
    ensures ResolveItems(c, more, items, file, done) == ResolveItems(c, fuel, items, file, done)
    decreases fuel, items
  {
    if items != [] {
      FuelIsMonotone(c, fuel, more, items[0], file);
      var r := Resolve(c, fuel, items[0], file);
      if r.Done? {
        ItemsMonotone(c, fuel, more, items[1..], file, done + [if r.value.Some? then r.value.value else Json.Null]);
      }
    }
  }

  lemma {:induction false} FieldsMonotone(c: Corpus, fuel: nat, more: nat, fields: seq<Field<Json>>, file: string,
                                          done: seq<Field<Json>>)
    requires Indexed(c) && fuel <= more && ResolveFields(c, fuel, fields, file, done) != TooDeep
    ensures ResolveFields(c, more, fields, file, done) == ResolveFields(c, fuel, fields, file, done)
    decreases fuel, fields, 1
  {
    if fields != [] {
      var f, rest := fields[0], fields[1..];
      if f.key == "$id" {
        FieldsMonotone(c, fuel, more, rest, file, done);
      } else if IsRef(f) {
        RefMonotone(c, fuel, more, fields, file, done);
      } else {
        FuelIsMonotone(c, fuel, more, f.value, file);
        var r := Resolve(c, fuel, f.value, file);
        if r.Done? {
          FieldsMonotone(c, fuel, more, rest, file,
                         if r.value.Some? then done + [Field(f.key, r.value.value)] else done);
        }
      }
    }
  }

  lemma {:induction false} RefMonotone(c: Corpus, fuel: nat, more: nat, fields: seq<Field<Json>>, file: string,
                                       done: seq<Field<Json>>)
    requires Indexed(c) && fuel <= more && ResolveFields(c, fuel, fields, file, done) != TooDeep
    requires fields != [] && IsRef(fields[0])
    ensures ResolveFields(c, more, fields, file, done) == ResolveFields(c, fuel, fields, file, done)
    decreases fuel, fields, 0
  {
    var f, rest := fields[0], fields[1..];
    if Local(f.value.text) {
      FieldsMonotone(c, fuel, more, rest, file, done + [f]);
    } else {
      var t := TargetOf(c, f.value.text, file);
      if t.Self? {
        FieldsMonotone(c, fuel, more, rest, file, done + [Field("$ref", Str(t.ref))]);
      } else if t.Other? && t.target.Some? {
        FuelIsMonotone(c, fuel - 1, more - 1, t.target.value, t.file);
      }
    }
  }

  /** Every reference in v, as seen from the file, finds its target, in the file itself or in one of
      lower rank. */
  ghost predicate Grounded(c: Corpus, rank: map<string, nat>, v: Json, file: string)
    requires Indexed(c)
  {
    match v
    case Arr(items) => forall i :: 0 <= i < |items| ==> Grounded(c, rank, items[i], file)
    case Obj(fields) =>
      forall i :: 0 <= i < |fields| ==>
        Grounded(c, rank, fields[i].value, file) && FieldGrounded(c, rank, fields[i], file)
    case _ => true
  }

  ghost predicate FieldGrounded(c: Corpus, rank: map<string, nat>, f: Field<Json>, file: string)
    requires Indexed(c)
  {
    IsRef(f) && !Local(f.value.text) ==>
      match TargetOf(c, f.value.text, file)
      case Self(_) => true
      case Other(there, target) => target.Some? && there in rank && file in rank && rank[there] < rank[file]
      case _ => false
  }

  /** The reference graph between files has no cycle, and every target exists. */
  ghost predicate Acyclic(c: Corpus, rank: map<string, nat>)
    requires Indexed(c)
  {
    forall file :: file in c.files ==> file in rank && Grounded(c, rank, c.files[file], file)
  }

  /** A pointer cannot lead to a value through a missing one. */
  lemma NothingBelow(next: Option<Json>, parts: seq<string>)
    requires Navigate(next, parts).Ok? && Navigate(next, parts).value.Some?
    ensures next.Some?
  {
  }

  lemma {:induction false} NavigateGrounded(
      c: Corpus, rank: map<string, nat>, v: Json, parts: seq<string>, file: string)
    requires Indexed(c) && Grounded(c, rank, v, file)
    requires Navigate(Some(v), parts).Ok? && Navigate(Some(v), parts).value.Some?
    ensures Grounded(c, rank, Navigate(Some(v), parts).value.value, file)
    decreases |parts|
  {
    if parts != [] {
      var next := Lookup(v.fields, parts[0]);
      NothingBelow(next, parts[1..]);
      assert Field(parts[0], next.value) in v.fields;
      NavigateGrounded(c, rank, next.value, parts[1..], file);
    }
  }

  /** With one unit of fuel per rank every reference is inlined: the recursion ends in a schema. */
  lemma {:induction false} ResolveEnds(c: Corpus, rank: map<string, nat>, fuel: nat, v: Json, file: string)
    requires Indexed(c) && Acyclic(c, rank) && Grounded(c, rank, v, file) && file in rank && rank[file] <= fuel
    ensures Resolve(c, fuel, v, file).Done? && Resolve(c, fuel, v, file).value.Some?
    decreases fuel, v
  {
    match v {
      case Arr(items) => ItemsEnd(c, rank, fuel, items, file, []);
      case Obj(fields) => FieldsEnd(c, rank, fuel, fields, file, []);
      case _ =>
    }
  }

  lemma {:induction false} ItemsEnd(
      c: Corpus, rank: map<string, nat>, fuel: nat, items: seq<Json>, file: string, done: seq<Json>)
    requires Indexed(c) && Acyclic(c, rank) && file in rank && rank[file] <= fuel
    requires forall i :: 0 <= i < |items| ==> Grounded(c, rank, items[i], file)
    ensures ResolveItems(c, fuel, items, file, done).Done? && ResolveItems(c, fuel, items, file, done).value.Some?
    decreases fuel, items
  {
    if items != [] {
      ResolveEnds(c, rank, fuel, items[0], file);
      ItemsEnd(c, rank, fuel, items[1..], file, done + [Resolve(c, fuel, items[0], file).value.value]);
    }
  }

  lemma {:induction false} FieldsEnd(
      c: Corpus, rank: map<string, nat>, fuel: nat, fields: seq<Field<Json>>, file: string, done: seq<Field<Json>>)
    requires Indexed(c) && Acyclic(c, rank) && file in rank && rank[file] <= fuel
    requires forall i :: 0 <= i < |fields| ==>
      Grounded(c, rank, fields[i].value, file) && FieldGrounded(c, rank, fields[i], file)
    ensures ResolveFields(c, fuel, fields, file, done).Done? && ResolveFields(c, fuel, fields, file, done).value.Some?
    decreases fuel, fields
  {
    if fields != [] {
      var f, rest := fields[0], fields[1..];
      if f.key == "$id" {
        FieldsEnd(c, rank, fuel, rest, file, done);
      } else if IsRef(f) && Local(f.value.text) {
        FieldsEnd(c, rank, fuel, rest, file, done + [f]);
      } else if IsRef(f) {
        var t := TargetOf(c, f.value.text, file);
        if t.Self? {
          FieldsEnd(c, rank, fuel, rest, file, done + [Field("$ref", Str(t.ref))]);
        } else {
          TargetGrounded(c, rank, f.value.text, file);
          ResolveEnds(c, rank, fuel - 1, t.target.value, t.file);
        }
      } else {
        ResolveEnds(c, rank, fuel, f.value, file);
        FieldsEnd(c, rank, fuel, rest, file, done + [Field(f.key, Resolve(c, fuel, f.value, file).value.value)]);
      }
    }
  }

  lemma TargetGrounded(c: Corpus, rank: map<string, nat>, ref: string, file: string)
    requires Indexed(c) && Acyclic(c, rank)
    requires TargetOf(c, ref, file).Other? && TargetOf(c, ref, file).target.Some?
    ensures Grounded(c, rank, TargetOf(c, ref, file).target.value, TargetOf(c, ref, file).file)
  {
    var there := c.ids[Base(ref)];
    NavigateGrounded(c, rank, c.files[there], if Fragment(ref) == [] then [] else Parts(Fragment(ref)), there);
  }

  // ---------------------------------------------------------------- the program

  /** resolveRefs. */
  method ResolveSchema(c: Corpus, fuel: nat, v: Json, file: string) returns (r: Outcome)
    requires Indexed(c)
    ensures r == Resolve(c, fuel, v, file)
    decreases fuel, v, 1
  {
    match v {
      case Arr(items) =>
        var done := [];
        assert items[0..] == items;
        for n := 0 to |items|
          invariant Resolve(c, fuel, v, file) == ResolveItems(c, fuel, items[n..], file, done)
        {
          assert items[n..][0] == items[n] && items[n..][1..] == items[n + 1..];
          var t := ResolveSchema(c, fuel, items[n], file);
          if !t.Done? { return t; }
          done := done + [if t.value.Some? then t.value.value else Json.Null];
        }
        return Done(Some(Arr(done)));
      case Obj(fields) => r := ResolveObject(c, fuel, v, file);
      case _ => r := Done(Some(v));
    }
  }

  /** The loop over the entries of an object. */
  method ResolveObject(c: Corpus, fuel: nat, v: Json, file: string) returns (r: Outcome)
    requires Indexed(c) && v.Obj?
    ensures r == Resolve(c, fuel, v, file)
    decreases fuel, v, 0
  {
    var fields, result := v.fields, [];
    assert fields[0..] == fields;
    for n := 0 to |fields|
      invariant Resolve(c, fuel, v, file) == ResolveFields(c, fuel, fields[n..], file, result)
    {
      var f := fields[n];
      assert fields[n..][0] == f && fields[n..][1..] == fields[n + 1..];
      if f.key == "$id" { continue; }
      if IsRef(f) {
        if Local(f.value.text) {
          result := result + [f];
          continue;
        }
        var t := FindTarget(c, f.value.text, file);
        match t {
          case Unknown => return Failed("no local schema has this $id");
          case Broken => return Failed("Cannot resolve fragment");
          case Other(there, target) =>
            if fuel == 0 { return TooDeep; }
            if target.None? { return Done(None); }
            r := ResolveSchema(c, fuel - 1, target.value, there);
            return;
          case Self(ref) => result := result + [Field("$ref", Str(ref))];
        }
        continue;
      }
      var value := ResolveSchema(c, fuel, f.value, file);
      if !value.Done? { return value; }
      if value.value.Some? { result := result + [Field(f.key, value.value.value)]; }
    }
    return Done(Some(Obj(result)));
  }

  /** Looking the reference up and walking its pointer. */
  method FindTarget(c: Corpus, ref: string, file: string) returns (t: Target)
    requires Indexed(c)
    ensures t == TargetOf(c, ref, file)
  {
    var base, fragment := Base(ref), Fragment(ref);
    if base !in c.ids { return Unknown; }
    var there := c.ids[base];
    if there == file { return Self(['#'] + fragment); }
    var target := Some(c.files[there]);
    var parts := if fragment == [] then [] else Parts(fragment);
    assert parts[0..] == parts;
    for n := 0 to |parts|
      invariant Navigate(Some(c.files[there]), parts) == Navigate(target, parts[n..])
    {
      assert parts[n..][0] == parts[n] && parts[n..][1..] == parts[n + 1..];
      if target.None? || !target.value.Obj? { return Broken; }
      target := Lookup(target.value.fields, parts[n]);
    }
    return Other(there, target);
  }
}
