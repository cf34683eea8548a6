/** Directories of two schema files, for the examples. */
module Directories {
  import opened Common
  import opened Json
  import opened ResolveRefs

  /** A directory of two schema files, and its corpus. */
  function Directory(a: Json, b: Json): seq<(string, Json)> { [("a.schema.json", a), ("b.schema.json", b)] }

  function CorpusOf(a: Json, b: Json, ids: map<string, string>): Corpus {
    Corpus(map["a.schema.json" := a, "b.schema.json" := b], ids)
  }

  lemma DirectoryIds(a: Json, b: Json, id: string)
    ensures FileWithId(Directory(a, b), id)
            == if IdOf(b) == id then Some("b.schema.json") else if IdOf(a) == id then Some("a.schema.json") else None
  {
    var files := Directory(a, b);
    var front := files[..1];
    assert front == [("a.schema.json", a)] && front[..0] == [];
    assert |files| - 1 == 1 && FileWithId(front, id) == if IdOf(a) == id then Some("a.schema.json") else None;
    assert files[1] == ("b.schema.json", b);
  }

  lemma DirectoryBuilt(a: Json, b: Json, ids: map<string, string>)
    requires IndexOf(Directory(a, b), ids)
    ensures Built(CorpusOf(a, b, ids), Directory(a, b)) && Indexed(CorpusOf(a, b, ids))
  {
    var files, c := Directory(a, b), CorpusOf(a, b, ids);
    assert files[0].0 == "a.schema.json" && files[1].0 == "b.schema.json" && "a.schema.json"[0] != "b.schema.json"[0];
    assert c.files.Keys == set i | 0 <= i < |files| :: files[i].0;
    BuiltIsIndexed(c, files);
  }

  /** A reference that names an id and nothing inside the file. */
  predicate Plain(id: string) { id != "" && forall i :: 0 <= i < |id| ==> id[i] != '#' }

  lemma PlainReference(id: string)
    requires Plain(id)
    ensures Base(id) == id && Fragment(id) == [] && !Local(id)
  {
  }

  /** The pointer of a reference to the entry "t" of the file with a one-letter id. */
  lemma ReferenceToT(ref: string, id: string)
    requires |id| == 1 && id[0] != '#' && ref == id + "#/t"
    ensures Base(ref) == id && Fragment(ref) == "/t" && Parts("/t") == ["t"] && ["t"][1..] == [] && !Local(ref)
  {
    assert UpTo(ref, '#') == 1 && Base(ref) == id;
    assert ref[2..] == "/t" && UpTo("/t", '#') == 2 && Fragment(ref) == "/t";
    assert "/t"[1..] == "t" && UpTo("t", '/') == 1 && Parts("/t") == ["t"];
  }

  lemma OneField(c: Corpus, fuel: nat, f: Field<Json>, file: string)
    requires Indexed(c) && !IsRef(f) && f.key != "$id" && Resolve(c, fuel, f.value, file).Done?
    requires Resolve(c, fuel, f.value, file).value.Some?
    ensures Resolve(c, fuel, Obj([f]), file)
            == Done(Some(Obj([Field(f.key, Resolve(c, fuel, f.value, file).value.value)])))
  {
    assert [f][1..] == [] && [] + [Field(f.key, Resolve(c, fuel, f.value, file).value.value)]
                            == [Field(f.key, Resolve(c, fuel, f.value, file).value.value)];
    assert ResolveFields(c, fuel, [f], file, [])
           == ResolveFields(c, fuel, [], file, [] + [Field(f.key, Resolve(c, fuel, f.value, file).value.value)]);
  }

  /** A reference that leads to a string in another file. */
  lemma OneReference(c: Corpus, fuel: nat, ref: string, file: string, there: string, target: Json)
    requires Indexed(c) && !Local(ref) && TargetOf(c, ref, file) == Other(there, Some(target)) && fuel > 0
    ensures Resolve(c, fuel, Obj([Field("$ref", Str(ref))]), file) == Resolve(c, fuel - 1, target, there)
  {
    var f := Field("$ref", Str(ref));
    assert |f.key| == 4 && |"$id"| == 3;
    assert IsRef(f) && [f][0] == f;
    assert ResolveFields(c, fuel, [f], file, []) == Enter(c, fuel - 1, Some(target), there);
  }
}
