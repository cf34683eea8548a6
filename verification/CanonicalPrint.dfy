/** The canonical printer behind contract comparison and attempt identity: two JSON values print
    alike exactly when they are equal up to the order of object keys. */
module CanonicalPrint {
  import opened Common
  import opened Json

  // ---------------------------------------------------------------- the printer

  function Hex(n: nat): char
    requires n < 16
  {
    if n < 10 then (n + '0' as int) as char else (n - 10 + 'a' as int) as char
  }

  /** One character of a JSON.stringify string. */
  function Escape(c: char): (r: string)
    ensures r != [] && r[0] != '"'
  {
    if c == '"' then ['\\', '"']
    else if c == '\\' then ['\\', '\\']
    else if c == 8 as char then ['\\', 'b']
    else if c == '\t' then ['\\', 't']
    else if c == '\n' then ['\\', 'n']
    else if c == 12 as char then ['\\', 'f']
    else if c == '\r' then ['\\', 'r']
    else if c < ' ' then ['\\', 'u', '0', '0', Hex(c as int / 16), Hex(c as int % 16)]
    else [c]
  }

  /** The escaped text and the closing quote. */
  function Escaped(s: string): (r: string)
    ensures r != []
  {
    if s == [] then ['"'] else Escape(s[0]) + Escaped(s[1..])
  }

  function Quote(s: string): string { ['"'] + Escaped(s) }

  /** stable: arrays in order, object keys sorted, everything else as JSON.stringify prints it. */
  function Stable(j: Json): string {
    match j
    case Null => "null"
    case Bool(b) => if b then "true" else "false"
    case Num(t) => t
    case Str(s) => Quote(s)
    case Arr(items) => ['['] + ItemsText(Printed(items)) + [']']
    case Obj(fields) => ['{'] + FieldsText(SortFields(PrintedFields(fields))) + ['}']
  }

  function Printed(items: seq<Json>): (r: seq<string>)
    ensures |r| == |items|
    ensures forall i :: 0 <= i < |items| ==> r[i] == Stable(items[i])
  {
    if items == [] then [] else [Stable(items[0])] + Printed(items[1..])
  }

  function PrintedFields(fields: seq<Field<Json>>): (r: seq<Field<string>>)
    ensures |r| == |fields|
    ensures forall i :: 0 <= i < |fields| ==> r[i] == Field(fields[i].key, Stable(fields[i].value))
  {
    if fields == [] then [] else [Field(fields[0].key, Stable(fields[0].value))] + PrintedFields(fields[1..])
  }

  /** join(','). */
  function ItemsText(items: seq<string>): string {
    if items == [] then [] else if |items| == 1 then items[0] else items[0] + [','] + ItemsText(items[1..])
  }

  function FieldText(f: Field<string>): string { Quote(f.key) + [':'] + f.value }

  function FieldsText(fields: seq<Field<string>>): string {
    ItemsText(seq(|fields|, i requires 0 <= i < |fields| => FieldText(fields[i])))
  }

  // ---------------------------------------------------------------- what it should decide

  predicate NumberChar(c: char) { '0' <= c <= '9' || c == '-' || c == '+' || c == '.' || c == 'e' }

  /** The shape of every text a finite number prints as. */
  predicate NumberText(t: string) {
    t != [] && ('0' <= t[0] <= '9' || t[0] == '-') && forall i :: 0 <= i < |t| ==> NumberChar(t[i])
  }

  /** A JSON value proper: number texts are numbers, and no object has a key twice. */
  ghost predicate Proper(j: Json) {
    match j
    case Num(t) => NumberText(t)
    case Arr(items) => forall i :: 0 <= i < |items| ==> Proper(items[i])
    case Obj(fields) => DistinctKeys(fields) && forall i :: 0 <= i < |fields| ==> Proper(fields[i].value)
    case _ => true
  }

  /** Equal up to the order of object keys, at every depth. */
  ghost predicate Same(a: Json, b: Json)
    decreases a, 2
  {
    match a
    case Arr(items) =>
      b.Arr? && |items| == |b.items| && forall i :: 0 <= i < |items| ==> Same(items[i], b.items[i])
    case Obj(fields) =>
      && b.Obj?
      && (forall i :: 0 <= i < |fields| ==> Found(a, i, b))
      && (forall k :: 0 <= k < |b.fields| ==> Covered(a, b, k))
    case _ => a == b
  }

  /** Field i of one object and field k of another have the same key and the same value. */
  ghost predicate SameAt(a: Json, i: nat, b: Json, k: nat)
    requires a.Obj? && b.Obj? && i < |a.fields| && k < |b.fields|
    decreases a, 0
  {
    a.fields[i].key == b.fields[k].key && Same(a.fields[i].value, b.fields[k].value)
  }

  ghost predicate Found(a: Json, i: nat, b: Json)
    requires a.Obj? && b.Obj? && i < |a.fields|
    decreases a, 1
  {
    exists k :: 0 <= k < |b.fields| && SameAt(a, i, b, k)
  }

  ghost predicate Covered(a: Json, b: Json, k: nat)
    requires a.Obj? && b.Obj? && k < |b.fields|
    decreases a, 1
  {
    exists i :: 0 <= i < |a.fields| && SameAt(a, i, b, k)
  }

  // ---------------------------------------------------------------- equal values print alike

  ghost predicate Among(ps: seq<Field<string>>, qs: seq<Field<string>>) {
    forall i :: 0 <= i < |ps| ==> ps[i] in qs
  }

  lemma PrintedDistinct(fs: seq<Field<Json>>)
    requires DistinctKeys(fs)
    ensures DistinctKeys(PrintedFields(fs))
  {
  }

  /** The same printed fields in any order sort to the same list. */
  lemma SortForgetsOrder(ps: seq<Field<string>>, qs: seq<Field<string>>)
    requires DistinctKeys(ps) && DistinctKeys(qs) && Among(ps, qs) && Among(qs, ps)
    ensures SortFields(ps) == SortFields(qs)
  {
    SortKeeps(ps);
    SortKeeps(qs);
    SortAscending(ps);
    SortAscending(qs);
    assert forall f :: f in ps <==> f in qs;
    AscendingUnique(SortFields(ps), SortFields(qs));
  }

  lemma PrintedObjects(fs: seq<Field<Json>>, gs: seq<Field<Json>>)
    requires DistinctKeys(fs) && DistinctKeys(gs)
    requires Among(PrintedFields(fs), PrintedFields(gs)) && Among(PrintedFields(gs), PrintedFields(fs))
    ensures Stable(Obj(fs)) == Stable(Obj(gs))
  {
    PrintedDistinct(fs);
    PrintedDistinct(gs);
    SortForgetsOrder(PrintedFields(fs), PrintedFields(gs));
  }

  lemma PrintedArrays(a: seq<Json>, b: seq<Json>)
    requires |a| == |b| && forall i :: 0 <= i < |a| ==> Stable(a[i]) == Stable(b[i])
    ensures Stable(Arr(a)) == Stable(Arr(b))
  {
    assert Printed(a) == Printed(b);
  }

  lemma {:induction false} SamePrintsAlike(a: Json, b: Json)
    requires Proper(a) && Proper(b) && Same(a, b)
    ensures Stable(a) == Stable(b)
  {
    if a.Arr? {
      forall i | 0 <= i < |a.items|
        ensures Stable(a.items[i]) == Stable(b.items[i])
      {
        SamePrintsAlike(a.items[i], b.items[i]);
      }
      PrintedArrays(a.items, b.items);
    } else if a.Obj? {
      var ps, qs := PrintedFields(a.fields), PrintedFields(b.fields);
      forall i, k | 0 <= i < |a.fields| && 0 <= k < |b.fields| && SameAt(a, i, b, k)
        ensures ps[i] == qs[k]
      {
        SamePrintsAlike(a.fields[i].value, b.fields[k].value);
      }
      forall i | 0 <= i < |ps|
        ensures ps[i] in qs
      {
        assert Found(a, i, b);
      }
      forall k | 0 <= k < |qs|
        ensures qs[k] in ps
      {
        assert Covered(a, b, k);
      }
      PrintedObjects(a.fields, b.fields);
    }
  }

  // ---------------------------------------------------------------- reading a text back

  predicate Delimiter(c: char) { c == ',' || c == ']' || c == '}' }

  /** A value's text is followed by the end of the input or by a delimiter. */
  predicate Ends(rest: string) { rest == [] || Delimiter(rest[0]) }

  /** No continuation can make two different texts agree. */
  ghost predicate Separate(p: string, q: string) {
    forall u, v :: Ends(u) && Ends(v) && p + u == q + v ==> p == q
  }

  lemma SameTail(p: string, u: string, v: string)
    requires p + u == p + v
    ensures u == v
  {
    assert (p + u)[|p|..] == u && (p + v)[|p|..] == v;
  }

  lemma EscapeOnce(c: char, d: char, u: string, v: string)
    requires Escape(c) + u == Escape(d) + v
    ensures c == d && u == v
  {
    var l, r := Escape(c) + u, Escape(d) + v;
    assert l[0] == Escape(c)[0] && r[0] == Escape(d)[0];
    if |Escape(c)| > 1 && |Escape(d)| > 1 {
      assert l[1] == Escape(c)[1] && r[1] == Escape(d)[1];
      if |Escape(c)| > 2 && |Escape(d)| > 2 {
        assert l[4] == Escape(c)[4] && r[4] == Escape(d)[4];
        assert l[5] == Escape(c)[5] && r[5] == Escape(d)[5];
      }
    }
    SameTail(Escape(c), u, v);
  }

  /** A quoted string ends where its first unescaped quote is, and escaping loses nothing. */
  lemma {:induction false} QuoteOnce(s: string, t: string, u: string, v: string)
    requires Escaped(s) + u == Escaped(t) + v
    ensures s == t && u == v
  {
    assert (Escaped(s) + u)[0] == Escaped(s)[0] && (Escaped(t) + v)[0] == Escaped(t)[0];
    if s == [] || t == [] {
      assert s == [] && t == [];
      SameTail(['"'], u, v);
    } else {
      ConcatAssoc(Escape(s[0]), Escaped(s[1..]), u);
      ConcatAssoc(Escape(t[0]), Escaped(t[1..]), v);
      EscapeOnce(s[0], t[0], Escaped(s[1..]) + u, Escaped(t[1..]) + v);
      QuoteOnce(s[1..], t[1..], u, v);
      assert s == [s[0]] + s[1..] && t == [t[0]] + t[1..];
    }
  }

  lemma Overhang(p: string, q: string, u: string, v: string)
    requires p + u == q + v && |p| < |q|
    ensures u != [] && u[0] == q[|p|]
  {
    assert (p + u)[|p|] == (q + v)[|p|];
  }

  lemma SameLength(p: string, q: string, u: string, v: string)
    requires p + u == q + v && |p| == |q|
    ensures p == q && u == v
  {
    assert (p + u)[..|p|] == p && (q + v)[..|q|] == q;
    SameTail(p, u, v);
  }

  /** A number goes on as long as there are number characters. */
  lemma NumbersSeparate(p: string, q: string, u: string, v: string)
    requires NumberText(p) && NumberText(q) && Ends(u) && Ends(v) && p + u == q + v
    ensures p == q
  {
    if |p| < |q| {
      Overhang(p, q, u, v);
    } else if |q| < |p| {
      Overhang(q, p, v, u);
    } else {
      SameLength(p, q, u, v);
    }
  }

  /** Texts that can be items of a list. */
  ghost predicate ItemTexts(ps: seq<string>) {
    forall i :: 0 <= i < |ps| ==> ps[i] != [] && !Delimiter(ps[i][0])
  }

  /** What follows the first item of a list closed by c. */
  function AfterFirst(ps: seq<string>, c: char, x: string): string
    requires ps != []
  {
    if |ps| == 1 then [c] + x else [','] + (ItemsText(ps[1..]) + [c] + x)
  }

  lemma ListText(ps: seq<string>, c: char, x: string)
    requires ps != []
    ensures ItemsText(ps) + [c] + x == ps[0] + AfterFirst(ps, c, x)
  {
    if |ps| == 1 {
      ConcatAssoc(ps[0], [c], x);
    } else {
      Regroup(ps[0], [','], ItemsText(ps[1..]), [c], x);
    }
  }

  lemma Regroup(p: string, m: string, r: string, c: string, x: string)
    ensures p + m + r + c + x == p + (m + r + c + x)
    ensures m + r + c + x == m + (r + c + x)
  {
    ConcatAssoc(p, m, r);
    ConcatAssoc(p, m + r, c);
    ConcatAssoc(p, m + r + c, x);
    ConcatAssoc(m, r, c);
    ConcatAssoc(m, r + c, x);
  }

  lemma FirstChar(ps: seq<string>, c: char, x: string)
    requires ItemTexts(ps) && Delimiter(c)
    ensures ItemsText(ps) + [c] + x != [] && ((ItemsText(ps) + [c] + x)[0] == c <==> ps == [])
  {
    if ps != [] { assert ItemsText(ps)[0] == ps[0][0]; }
  }

  /** A list of separate items can be read back item by item. */
  lemma {:induction false} ListOnce(ps: seq<string>, qs: seq<string>, c: char, x: string, y: string)
    requires ItemTexts(ps) && ItemTexts(qs) && (c == ']' || c == '}')
    requires forall i, k :: 0 <= i < |ps| && 0 <= k < |qs| ==> Separate(ps[i], qs[k])
    requires ItemsText(ps) + [c] + x == ItemsText(qs) + [c] + y
    ensures ps == qs && x == y
  {
    var l, r := ItemsText(ps) + [c] + x, ItemsText(qs) + [c] + y;
    if ps == [] || qs == [] {
      FirstChar(ps, c, x);
      FirstChar(qs, c, y);
      assert l == [c] + x && r == [c] + y;
      SameTail([c], x, y);
    } else {
      ListText(ps, c, x);
      ListText(qs, c, y);
      var u, v := AfterFirst(ps, c, x), AfterFirst(qs, c, y);
      assert Separate(ps[0], qs[0]) && Ends(u) && Ends(v);
      SameTail(ps[0], u, v);
      if |ps| == 1 || |qs| == 1 {
        assert u[0] == v[0];
        SameTail([c], x, y);
      } else {
        SameTail([','], ItemsText(ps[1..]) + [c] + x, ItemsText(qs[1..]) + [c] + y);
        ListOnce(ps[1..], qs[1..], c, x, y);
        assert ps == [ps[0]] + ps[1..] && qs == [qs[0]] + qs[1..];
      }
    }
  }

  // ---------------------------------------------------------------- no two texts overlap

  /** The first character tells the kind of value. */
  function Opening(j: Json): char
    requires j.Num? ==> NumberText(j.text)
  {
    match j
    case Null => 'n'
    case Bool(b) => if b then 't' else 'f'
    case Num(t) => t[0]
    case Str(_) => '"'
    case Arr(_) => '['
    case Obj(_) => '{'
  }

  lemma StartsWith(j: Json, u: string)
    requires Proper(j)
    ensures Stable(j) != [] && Stable(j)[0] == Opening(j) && (Stable(j) + u)[0] == Opening(j) && !Delimiter(Opening(j))
  {
  }

  function FieldTexts(fields: seq<Field<string>>): seq<string> {
    seq(|fields|, i requires 0 <= i < |fields| => FieldText(fields[i]))
  }

  /** Field texts differ in their key or their value, both of which can be read back. */
  lemma FieldsSeparate(f: Field<string>, g: Field<string>)
    requires Separate(f.value, g.value)
    ensures Separate(FieldText(f), FieldText(g))
    ensures FieldText(f) == FieldText(g) ==> f == g
  {
    forall u, v | Ends(u) && Ends(v) && FieldText(f) + u == FieldText(g) + v
      ensures f == g
    {
      ReadField(f, u);
      ReadField(g, v);
      SameTail(['"'], Escaped(f.key) + ([':'] + (f.value + u)), Escaped(g.key) + ([':'] + (g.value + v)));
      QuoteOnce(f.key, g.key, [':'] + (f.value + u), [':'] + (g.value + v));
      SameTail([':'], f.value + u, g.value + v);
    }
    if FieldText(f) == FieldText(g) { assert FieldText(f) + [] == FieldText(g) + []; }
  }

  lemma ReadField(f: Field<string>, u: string)
    ensures FieldText(f) + u == ['"'] + (Escaped(f.key) + ([':'] + (f.value + u)))
  {
    var k := Escaped(f.key);
    ConcatAssoc(['"'] + k + [':'], f.value, u);
    ConcatAssoc(['"'] + k, [':'], f.value + u);
    ConcatAssoc(['"'], k, [':'] + (f.value + u));
  }

  /** Every two values of two lists print to separate texts. */
  ghost predicate AllSeparate(ps: seq<string>, qs: seq<string>) {
    forall i, k :: 0 <= i < |ps| && 0 <= k < |qs| ==> Separate(ps[i], qs[k])
  }

  ghost predicate FieldsAllSeparate(fs: seq<Field<string>>, gs: seq<Field<string>>) {
    forall f, g :: f in fs && g in gs ==> Separate(f.value, g.value)
  }

  lemma FieldTextsSeparate(fs: seq<Field<string>>, gs: seq<Field<string>>)
    requires FieldsAllSeparate(fs, gs)
    ensures AllSeparate(FieldTexts(fs), FieldTexts(gs)) && ItemTexts(FieldTexts(fs)) && ItemTexts(FieldTexts(gs))
    ensures FieldTexts(fs) == FieldTexts(gs) ==> fs == gs
  {
    forall i, k | 0 <= i < |fs| && 0 <= k < |gs|
      ensures Separate(FieldTexts(fs)[i], FieldTexts(gs)[k])
      ensures FieldTexts(fs)[i] == FieldTexts(gs)[k] ==> fs[i] == gs[k]
    {
      FieldsSeparate(fs[i], gs[k]);
    }
    if FieldTexts(fs) == FieldTexts(gs) {
      assert |fs| == |FieldTexts(fs)| == |gs|;
      assert forall i :: 0 <= i < |fs| ==> FieldTexts(fs)[i] == FieldTexts(gs)[i];
    }
  }

  /** Two printed arrays read back to the same item texts. */
  lemma ArraysOnce(a: seq<Json>, b: seq<Json>, u: string, v: string)
    requires (forall i :: 0 <= i < |a| ==> Proper(a[i])) && (forall i :: 0 <= i < |b| ==> Proper(b[i]))
    requires AllSeparate(Printed(a), Printed(b)) && Stable(Arr(a)) + u == Stable(Arr(b)) + v
    ensures Printed(a) == Printed(b)
  {
    forall i | 0 <= i < |a| { StartsWith(a[i], []); }
    forall i | 0 <= i < |b| { StartsWith(b[i], []); }
    Enclosed('[', ItemsText(Printed(a)), ']', u);
    Enclosed('[', ItemsText(Printed(b)), ']', v);
    SameTail(['['], ItemsText(Printed(a)) + [']'] + u, ItemsText(Printed(b)) + [']'] + v);
    ListOnce(Printed(a), Printed(b), ']', u, v);
  }

  lemma Enclosed(open: char, body: string, close: char, u: string)
    ensures [open] + body + [close] + u == [open] + (body + [close] + u)
  {
  }

  /** Two printed objects read back to the same sorted fields. */
  lemma ObjectsOnce(a: seq<Field<Json>>, b: seq<Field<Json>>, u: string, v: string)
    requires FieldsAllSeparate(PrintedFields(a), PrintedFields(b)) && Stable(Obj(a)) + u == Stable(Obj(b)) + v
    ensures SortFields(PrintedFields(a)) == SortFields(PrintedFields(b))
  {
    var fs, gs := SortFields(PrintedFields(a)), SortFields(PrintedFields(b));
    SortKeeps(PrintedFields(a));
    SortKeeps(PrintedFields(b));
    FieldTextsSeparate(fs, gs);
    Enclosed('{', FieldsText(fs), '}', u);
    Enclosed('{', FieldsText(gs), '}', v);
    SameTail(['{'], FieldsText(fs) + ['}'] + u, FieldsText(gs) + ['}'] + v);
    ListOnce(FieldTexts(fs), FieldTexts(gs), '}', u, v);
  }

  /** Unique readability: whatever delimiter follows, a printed value can be read in one way. */
  lemma {:induction false} TextsSeparate(a: Json, b: Json)
    requires Proper(a) && Proper(b)
    ensures Separate(Stable(a), Stable(b))
  {
    forall u, v | Ends(u) && Ends(v) && Stable(a) + u == Stable(b) + v
      ensures Stable(a) == Stable(b)
    {
      StartsWith(a, u);
      StartsWith(b, v);
      match a {
        case Num(p) => NumbersSeparate(p, b.text, u, v);
        case Str(s) =>
          Quoted(s, u);
          Quoted(b.text, v);
          SameTail(['"'], Escaped(s) + u, Escaped(b.text) + v);
          QuoteOnce(s, b.text, u, v);
        case Arr(items) =>
          forall i, k | 0 <= i < |items| && 0 <= k < |b.items| { TextsSeparate(items[i], b.items[k]); }
          ArraysOnce(items, b.items, u, v);
        case Obj(fields) =>
          forall i, k | 0 <= i < |fields| && 0 <= k < |b.fields| { TextsSeparate(fields[i].value, b.fields[k].value); }
          ObjectsOnce(fields, b.fields, u, v);
        case _ =>
      }
    }
  }

  lemma Quoted(s: string, u: string)
    ensures Quote(s) + u == ['"'] + (Escaped(s) + u)
  {
  }

  // ---------------------------------------------------------------- values that print alike are equal

  lemma {:induction false} PrintsAlikeSame(a: Json, b: Json)
    requires Proper(a) && Proper(b) && Stable(a) == Stable(b)
    ensures Same(a, b)
  {
    StartsWith(a, []);
    StartsWith(b, []);
    match a {
      case Str(s) =>
        SameTail(['"'], Escaped(s), Escaped(b.text));
        assert Escaped(s) + [] == Escaped(b.text) + [];
        QuoteOnce(s, b.text, [], []);
      case Arr(items) =>
        forall i, k | 0 <= i < |items| && 0 <= k < |b.items| { TextsSeparate(items[i], b.items[k]); }
        ArraysOnce(items, b.items, [], []);
        forall i | 0 <= i < |items|
          ensures Same(items[i], b.items[i])
        {
          assert Printed(items)[i] == Printed(b.items)[i];
          PrintsAlikeSame(items[i], b.items[i]);
        }
      case Obj(fields) =>
        forall i, k | 0 <= i < |fields| && 0 <= k < |b.fields| { TextsSeparate(fields[i].value, b.fields[k].value); }
        ObjectsOnce(fields, b.fields, [], []);
        forall i, k | 0 <= i < |fields| && 0 <= k < |b.fields| && PrintedFields(fields)[i] == PrintedFields(b.fields)[k]
          ensures SameAt(a, i, b, k)
        {
          PrintsAlikeSame(fields[i].value, b.fields[k].value);
        }
        SortedMatch(a, b);
      case _ =>
    }
  }

  lemma SortedMatch(a: Json, b: Json)
    requires a.Obj? && b.Obj? && SortFields(PrintedFields(a.fields)) == SortFields(PrintedFields(b.fields))
    requires forall i, k :: 0 <= i < |a.fields| && 0 <= k < |b.fields| ==>
      PrintedFields(a.fields)[i] == PrintedFields(b.fields)[k] ==> SameAt(a, i, b, k)
    ensures Same(a, b)
  {
    var ps, qs := PrintedFields(a.fields), PrintedFields(b.fields);
    SortKeeps(ps);
    SortKeeps(qs);
    forall i | 0 <= i < |a.fields|
      ensures Found(a, i, b)
    {
      assert ps[i] in qs;
      var k :| 0 <= k < |qs| && qs[k] == ps[i];
      assert SameAt(a, i, b, k);
    }
    forall k | 0 <= k < |b.fields|
      ensures Covered(a, b, k)
    {
      assert qs[k] in ps;
      var i :| 0 <= i < |ps| && ps[i] == qs[k];
      assert SameAt(a, i, b, k);
    }
  }

  /** The comparison of printed texts decides equality up to key order. */
  lemma PrintingDecidesEquality(a: Json, b: Json)
    requires Proper(a) && Proper(b)
    ensures Stable(a) == Stable(b) <==> Same(a, b)
  {
    if Stable(a) == Stable(b) { PrintsAlikeSame(a, b); }
    if Same(a, b) { SamePrintsAlike(a, b); }
  }
}
