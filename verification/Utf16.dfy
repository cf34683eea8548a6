/** The order in which keys are sorted is that of their UTF-16 code units. */
module Utf16 {
  import opened Common
  import opened Json

  /** One unit, or a surrogate pair for a character beyond the basic plane. */
  function Units(c: char): seq<nat> {
    var n: nat := c as int;
    if n < 0x10000 then [n] else [0xD800 + (n - 0x10000) / 0x400, 0xDC00 + (n - 0x10000) % 0x400]
  }

  function CodeUnits(s: string): seq<nat> { if s == [] then [] else Units(s[0]) + CodeUnits(s[1..]) }

  predicate Less(a: seq<nat>, b: seq<nat>) {
    b != [] && (a == [] || a[0] < b[0] || (a[0] == b[0] && Less(a[1..], b[1..])))
  }

  lemma LessAfterOne(n: nat, a: seq<nat>, b: seq<nat>)
    ensures Less([n] + a, [n] + b) <==> Less(a, b)
  {
    assert ([n] + a)[1..] == a && ([n] + b)[1..] == b;
  }

  lemma LessAfterTwo(n: nat, m: nat, a: seq<nat>, b: seq<nat>)
    ensures Less([n, m] + a, [n, m] + b) <==> Less(a, b)
  {
    assert [n, m] + a == [n] + ([m] + a) && [n, m] + b == [n] + ([m] + b);
    LessAfterOne(n, [m] + a, [m] + b);
    LessAfterOne(m, a, b);
  }

  lemma SameCharacter(c: char, a: seq<nat>, b: seq<nat>)
    ensures Less(Units(c) + a, Units(c) + b) <==> Less(a, b)
  {
    if c as int < 0x10000 { LessAfterOne(c as int, a, b); } else { LessAfterTwo(Units(c)[0], Units(c)[1], a, b); }
  }

  /** Two characters beyond the basic plane are told apart by their first or by their second unit. */
  lemma Pairs(c: char, d: char, a: seq<nat>, b: seq<nat>)
    requires c as int >= 0x10000 && d as int >= 0x10000 && c != d
    ensures Less(Units(c) + a, Units(d) + b) <==> c < d
  {
    var x, y := Units(c) + a, Units(d) + b;
    var p, q := c as int - 0x10000, d as int - 0x10000;
    assert p == p / 0x400 * 0x400 + p % 0x400 && q == q / 0x400 * 0x400 + q % 0x400;
    assert x[1..][0] == Units(c)[1] && y[1..][0] == Units(d)[1];
  }

  lemma DifferentCharacters(c: char, d: char, a: seq<nat>, b: seq<nat>)
    requires c != d
    ensures Less(Units(c) + a, Units(d) + b) <==> Rank(c) < Rank(d)
  {
    if c as int >= 0x10000 && d as int >= 0x10000 {
      Pairs(c, d, a, b);
    } else {
      assert (Units(c) + a)[0] == Units(c)[0] && (Units(d) + b)[0] == Units(d)[0];
      assert Units(c)[0] != Units(d)[0];
    }
  }

  /** Keys are compared as the program compares them: code unit by code unit. */
  lemma {:induction false} BeforeIsUtf16(a: string, b: string)
    ensures Before(a, b) <==> Less(CodeUnits(a), CodeUnits(b))
  {
    if a != [] && b != [] {
      if a[0] == b[0] {
        BeforeIsUtf16(a[1..], b[1..]);
        SameCharacter(a[0], CodeUnits(a[1..]), CodeUnits(b[1..]));
      } else {
        DifferentCharacters(a[0], b[0], CodeUnits(a[1..]), CodeUnits(b[1..]));
        RanksDiffer(a[0], b[0]);
      }
    }
  }

  lemma RanksDiffer(c: char, d: char)
    requires c != d
    ensures Rank(c) != Rank(d)
  {
  }
}
