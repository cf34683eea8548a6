/** What the canonical printer writes is a JSON text of the value, with the keys in order. */
module CanonicalText {
  import opened Common
  import opened Json
  import opened CanonicalPrint

  // ---------------------------------------------------------------- strings, section 7 of RFC 8259

  function HexValue(c: char): int {
    if '0' <= c <= '9' then c as int - '0' as int
    else if 'a' <= c <= 'f' then c as int - 'a' as int + 10
    else if 'A' <= c <= 'F' then c as int - 'A' as int + 10
    else -1
  }

  /** The escape with four hexadecimal digits. */
  predicate UnicodeEscape(c: char, e: string) {
    && |e| == 6 && e[0] == '\\' && e[1] == 'u' && (forall i :: 2 <= i < 6 ==> HexValue(e[i]) >= 0)
    && c as int == ((HexValue(e[2]) * 16 + HexValue(e[3])) * 16 + HexValue(e[4])) * 16 + HexValue(e[5])
  }

  /** e stands for the character c inside a JSON string. */
  predicate StandsFor(c: char, e: string) {
    || (e == [c] && c != '"' && c != '\\' && c as int >= 0x20)
    || (e == "\\\"" && c == '"') || (e == "\\\\" && c == '\\') || (e == "\\/" && c == '/')
    || (e == "\\b" && c as int == 8) || (e == "\\f" && c as int == 12) || (e == "\\n" && c as int == 10)
    || (e == "\\r" && c as int == 13) || (e == "\\t" && c as int == 9)
    || UnicodeEscape(c, e)
  }

  /** The characters of s, one after the other. */
  ghost predicate StringBody(s: string, t: string) {
    if s == [] then t == []
    else exists n :: 0 < n <= |t| && StandsFor(s[0], t[..n]) && StringBody(s[1..], t[n..])
  }

  ghost predicate StringText(s: string, t: string) {
    |t| >= 2 && t[0] == '"' && t[|t| - 1] == '"' && StringBody(s, t[1..|t| - 1])
  }

  // ---------------------------------------------------------------- values, sections 3 to 6

  /** The parts with a comma between them. */
  function Commas(parts: seq<string>): string {
    if |parts| == 0 then "" else if |parts| == 1 then parts[0] else parts[0] + "," + Commas(parts[1..])
  }

  /** t is a JSON text of v without insignificant blanks, its keys in ascending order. */
  ghost predicate TextOf(v: Json, t: string)
    decreases v, 1
  {
    match v
    case Null => t == "null"
    case Bool(flag) => t == if flag then "true" else "false"
    case Num(text) => t == text
    case Str(s) => StringText(s, t)
    case Arr(items) =>
      exists parts: seq<string> :: t == "[" + Commas(parts) + "]" && ItemTexts(items, parts)
    case Obj(fields) =>
      exists order: seq<nat>, parts: seq<string> ::
        t == "{" + Commas(parts) + "}" && InKeyOrder(fields, order) && MemberTexts(v, order, parts)
  }

  ghost predicate ItemTexts(items: seq<Json>, parts: seq<string>)
    decreases items, 0
  {
    |parts| == |items| && forall i :: 0 <= i < |items| ==> TextOf(items[i], parts[i])
  }

  /** Every field once, by ascending key. */
  ghost predicate InKeyOrder(fields: seq<Field<Json>>, order: seq<nat>) {
    && |order| == |fields| && (forall i :: 0 <= i < |order| ==> order[i] < |fields|)
    && forall i, k :: 0 <= i < k < |order| ==> Before(fields[order[i]].key, fields[order[k]].key)
  }

  ghost predicate MemberTexts(v: Json, order: seq<nat>, parts: seq<string>)
    requires v.Obj? && forall i :: 0 <= i < |order| ==> order[i] < |v.fields|
    decreases v, 0
  {
    && |parts| == |order|
    && forall i :: 0 <= i < |order| ==> MemberText(v, order[i], parts[i])
  }

  /** A key, a colon and a value. */
  ghost predicate MemberText(v: Json, i: nat, t: string)
    requires v.Obj? && i < |v.fields|
    decreases v, 0, 0
  {
    exists key: string, value: string ::
      t == key + ":" + value && StringText(v.fields[i].key, key) && TextOf(v.fields[i].value, value)
  }

  // ---------------------------------------------------------------- the printer writes such a text

  lemma EscapeStands(c: char)
    ensures StandsFor(c, Escape(c))
  {
    if c < ' ' && c != 8 as char && c != '\t' && c != '\n' && c != 12 as char && c != '\r' {
      var e := Escape(c);
      HexDigits(c as int / 16);
      HexDigits(c as int % 16);
      assert HexValue('0') == 0;
      assert UnicodeEscape(c, e);
    }
  }

  lemma HexDigits(n: nat)
    requires n < 16
    ensures HexValue(Hex(n)) == n
  {
  }

  lemma {:induction false} EscapedBody(s: string)
    ensures |Escaped(s)| > 0 && Escaped(s)[|Escaped(s)| - 1] == '"'
    ensures StringBody(s, Escaped(s)[..|Escaped(s)| - 1])
  {
    if s != [] {
      EscapedBody(s[1..]);
      EscapeStands(s[0]);
      var e, rest := Escape(s[0]), Escaped(s[1..]);
      var t := (e + rest)[..|e + rest| - 1];
      assert t == e + rest[..|rest| - 1];
      assert t[..|e|] == e && t[|e|..] == rest[..|rest| - 1];
    }
  }

  lemma QuoteIsText(s: string)
    ensures StringText(s, Quote(s))
  {
    EscapedBody(s);
    var t := Quote(s);
    assert t[1..|t| - 1] == Escaped(s)[..|Escaped(s)| - 1];
  }

  lemma {:induction false} ItemsWithCommas(parts: seq<string>)
    ensures ItemsText(parts) == Commas(parts)
  {
    if |parts| > 1 { ItemsWithCommas(parts[1..]); }
  }

  lemma FieldStands(fields: seq<Field<Json>>, f: Field<string>) returns (n: nat)
    requires f in PrintedFields(fields)
    ensures n < |fields| && f == Field(fields[n].key, Stable(fields[n].value))
  {
    n :| 0 <= n < |PrintedFields(fields)| && PrintedFields(fields)[n] == f;
  }

  /** Where the sorted fields stand. */
  lemma {:induction false} SortedFrom(fields: seq<Field<Json>>, sorted: seq<Field<string>>) returns (order: seq<nat>)
    requires forall f :: f in sorted ==> f in PrintedFields(fields)
    ensures |order| == |sorted|
    ensures forall i :: 0 <= i < |sorted| ==>
      order[i] < |fields| && sorted[i] == Field(fields[order[i]].key, Stable(fields[order[i]].value))
  {
    order := [];
    if sorted != [] {
      var n := FieldStands(fields, sorted[0]);
      var rest := SortedFrom(fields, sorted[1..]);
      order := [n] + rest;
      forall i | 0 <= i < |sorted|
        ensures order[i] < |fields| && sorted[i] == Field(fields[order[i]].key, Stable(fields[order[i]].value))
      {
        if i > 0 { assert sorted[i] == sorted[1..][i - 1]; }
      }
    }
  }

  lemma {:induction false} StableIsText(v: Json)
    requires Proper(v)
    ensures TextOf(v, Stable(v))
  {
    match v {
      case Str(s) => QuoteIsText(s);
      case Arr(items) =>
        var parts := Printed(items);
        forall i | 0 <= i < |items|
          ensures TextOf(items[i], parts[i])
        {
          StableIsText(items[i]);
        }
        ItemsWithCommas(parts);
        assert ItemTexts(items, parts);
      case Obj(fields) =>
        forall i | 0 <= i < |fields|
          ensures TextOf(fields[i].value, Stable(fields[i].value))
        {
          StableIsText(fields[i].value);
        }
        ObjectIsText(v);
      case _ =>
    }
  }

  lemma ObjectIsText(v: Json)
    requires v.Obj? && Proper(v)
    requires forall i :: 0 <= i < |v.fields| ==> TextOf(v.fields[i].value, Stable(v.fields[i].value))
    ensures TextOf(v, Stable(v))
  {
    var printed := PrintedFields(v.fields);
    var sorted := SortFields(printed);
    PrintedDistinct(v.fields);
    SortKeeps(printed);
    SortAscending(printed);
    var order := SortedFrom(v.fields, sorted);
    var parts := seq(|sorted|, i requires 0 <= i < |sorted| => FieldText(sorted[i]));
    forall i | 0 <= i < |order|
      ensures MemberText(v, order[i], parts[i])
    {
      QuoteIsText(sorted[i].key);
      assert parts[i] == Quote(sorted[i].key) + ":" + sorted[i].value;
    }
    ItemsWithCommas(parts);
    assert InKeyOrder(v.fields, order) && MemberTexts(v, order, parts);
  }
}
