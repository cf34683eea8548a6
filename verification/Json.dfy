/** JSON values, and the order in which object keys are enumerated after a sort. */
module Json {
  import opened Common

  datatype Field<T> = Field(key: string, value: T)

  /** A number is the text its value prints as; equal numbers print alike, and -0 prints as 0. */
  datatype Json =
    | Null
    | Bool(flag: bool)
    | Num(text: string)
    | Str(text: string)
    | Arr(items: seq<Json>)
    | Obj(fields: seq<Field<Json>>)

  /** The field of an object, if it has one. */
  function Lookup(fields: seq<Field<Json>>, key: string): (r: Option<Json>)
    ensures r.Some? ==> Field(key, r.value) in fields
    ensures r.None? <==> forall f :: f in fields ==> f.key != key
  {
    if fields == [] then None
    else if fields[0].key == key then
      assert fields[0] == Field(key, fields[0].value);
      Some(fields[0].value)
    else Lookup(fields[1..], key)
  }

  // ---------------------------------------------------------------- key order

  /** Position in the order of UTF-16 code units: characters beyond the basic plane are written with
      surrogates and come before U+E000. */
  function Rank(c: char): int {
    if 0xE000 <= c as int < 0x10000 then c as int + 0x110000 else c as int
  }

  predicate Before(a: string, b: string) {
    b != [] && (a == [] || Rank(a[0]) < Rank(b[0]) || (a[0] == b[0] && Before(a[1..], b[1..])))
  }

  lemma {:induction false} BeforeIsTotal(a: string, b: string)
    ensures a == b || Before(a, b) || Before(b, a)
    ensures !(Before(a, b) && Before(b, a)) && !(a == b && Before(a, b))
  {
    if a != [] && b != [] {
      BeforeIsTotal(a[1..], b[1..]);
      if a[0] == b[0] && a[1..] == b[1..] {
        assert a == [a[0]] + a[1..] && b == [b[0]] + b[1..];
      }
    }
  }

  lemma {:induction false} BeforeTransitive(a: string, b: string, c: string)
    requires Before(a, b) && Before(b, c)
    ensures Before(a, c)
  {
    if a != [] && a[0] == b[0] && b[0] == c[0] { BeforeTransitive(a[1..], b[1..], c[1..]); }
  }

  // ---------------------------------------------------------------- sorting fields by key

  ghost predicate DistinctKeys<T>(fields: seq<Field<T>>) {
    forall i, k :: 0 <= i < k < |fields| ==> fields[i].key != fields[k].key
  }

  ghost predicate Ascending<T>(fields: seq<Field<T>>) {
    forall i, k :: 0 <= i < k < |fields| ==> Before(fields[i].key, fields[k].key)
  }

  function Insert<T>(f: Field<T>, fields: seq<Field<T>>): seq<Field<T>> {
    if fields == [] || Before(f.key, fields[0].key) then [f] + fields else [fields[0]] + Insert(f, fields[1..])
  }

  function SortFields<T>(fields: seq<Field<T>>): seq<Field<T>> {
    if fields == [] then [] else Insert(fields[0], SortFields(fields[1..]))
  }

  lemma {:induction false} InsertKeeps<T(!new)>(f: Field<T>, fields: seq<Field<T>>)
    ensures |Insert(f, fields)| == |fields| + 1
    ensures forall g :: g in Insert(f, fields) <==> g == f || g in fields
  {
    if fields != [] && !Before(f.key, fields[0].key) {
      InsertKeeps(f, fields[1..]);
      assert fields == [fields[0]] + fields[1..];
    }
  }

  lemma {:induction false} SortKeeps<T(!new)>(fields: seq<Field<T>>)
    ensures |SortFields(fields)| == |fields|
    ensures forall g :: g in SortFields(fields) <==> g in fields
  {
    if fields != [] {
      SortKeeps(fields[1..]);
      InsertKeeps(fields[0], SortFields(fields[1..]));
      assert fields == [fields[0]] + fields[1..];
    }
  }

  lemma {:induction false} InsertAscending<T(!new)>(f: Field<T>, fields: seq<Field<T>>)
    requires Ascending(fields) && forall g :: g in fields ==> g.key != f.key
    ensures Ascending(Insert(f, fields))
  {
    var r := Insert(f, fields);
    if fields != [] {
      var head, rest := fields[0], fields[1..];
      if Before(f.key, head.key) {
        forall k | 0 < k < |r|
          ensures Before(f.key, r[k].key)
        {
          if k > 1 { BeforeTransitive(f.key, head.key, fields[k - 1].key); }
        }
      } else {
        assert head in fields;
        BeforeIsTotal(f.key, head.key);
        InsertAscending(f, rest);
        InsertKeeps(f, rest);
        var tail := Insert(f, rest);
        assert r == [head] + tail;
        forall k | 0 < k < |r|
          ensures Before(head.key, r[k].key)
        {
          assert r[k] == tail[k - 1] && tail[k - 1] in tail;
          if tail[k - 1] != f {
            assert tail[k - 1] in rest;
            var n :| 0 <= n < |rest| && rest[n] == tail[k - 1];
            assert fields[n + 1] == rest[n];
          }
        }
      }
    }
  }

  lemma {:induction false} SortAscending<T(!new)>(fields: seq<Field<T>>)
    requires DistinctKeys(fields)
    ensures Ascending(SortFields(fields))
  {
    if fields != [] {
      SortAscending(fields[1..]);
      SortKeeps(fields[1..]);
      forall g | g in SortFields(fields[1..])
        ensures g.key != fields[0].key
      {
        assert g in fields[1..];
        var k :| 0 <= k < |fields[1..]| && fields[1..][k] == g;
        assert fields[k + 1] == g;
      }
      InsertAscending(fields[0], SortFields(fields[1..]));
    }
  }

  lemma SameEmptiness<T(!new)>(a: seq<T>, b: seq<T>)
    requires forall g :: g in a <==> g in b
    ensures a == [] <==> b == []
  {
    assert a != [] ==> a[0] in a;
    assert b != [] ==> b[0] in b;
  }

  lemma AscendingHead<T(!new)>(a: seq<Field<T>>, b: seq<Field<T>>)
    requires Ascending(a) && Ascending(b) && a != [] && b != []
    requires forall g :: g in a <==> g in b
    ensures a[0] == b[0]
  {
    assert a[0] in b && b[0] in a;
    var i :| 0 <= i < |b| && b[i] == a[0];
    var k :| 0 <= k < |a| && a[k] == b[0];
    BeforeIsTotal(a[0].key, b[0].key);
  }

  /** Ascending fields are determined by which fields they are. */
  lemma {:induction false} AscendingUnique<T(!new)>(a: seq<Field<T>>, b: seq<Field<T>>)
    requires Ascending(a) && Ascending(b) && forall g :: g in a <==> g in b
    ensures a == b
  {
    SameEmptiness(a, b);
    if a != [] {
      AscendingHead(a, b);
      forall g
        ensures g in a[1..] <==> g in b[1..]
      {
        TailMember(a, g);
        TailMember(b, g);
      }
      AscendingUnique(a[1..], b[1..]);
      assert a == [a[0]] + a[1..] && b == [b[0]] + b[1..];
    }
  }

  lemma TailMember<T(!new)>(a: seq<Field<T>>, g: Field<T>)
    requires Ascending(a) && a != []
    ensures g in a[1..] <==> g in a && g != a[0]
  {
    BeforeIsTotal(a[0].key, a[0].key);
    if g in a[1..] {
      var k :| 0 <= k < |a[1..]| && a[1..][k] == g;
      assert a[k + 1] == g && Before(a[0].key, a[k + 1].key);
    }
    if g in a && g != a[0] {
      var k :| 0 <= k < |a| && a[k] == g;
      assert a[1..][k - 1] == g;
    }
  }
}
