/** What shortening makes of one text, read off its words and its length. */
module TextMeaning {
  import opened Common
  import opened Excerpts

  // ---------------------------------------------------------------- numbers

  /** The number a string of digits stands for. */
  function ValueOf(s: string): int {
    if s == [] then 0 else ValueOf(s[..|s| - 1]) * 10 + (s[|s| - 1] as int - '0' as int)
  }

  lemma {:induction false} DecimalRead(n: nat)
    ensures ValueOf(Decimal(n)) == n && (forall i :: 0 <= i < |Decimal(n)| ==> '0' <= Decimal(n)[i] <= '9')
    ensures n > 0 ==> Decimal(n)[0] != '0'
  {
    var digit := [('0' as int + n % 10) as char];
    if n < 10 {
      assert digit[..0] == [];
    } else {
      var front := Decimal(n / 10);
      DecimalRead(n / 10);
      assert (front + digit)[..|front|] == front && (front + digit)[|front|] == digit[0];
    }
  }

  // ---------------------------------------------------------------- words

  /** The words of a text, the first of which goes on from `word`. */
  function WordsFrom(s: string, word: string): seq<string> {
    if s == [] then if word == [] then [] else [word]
    else if IsSpace(s[0]) then (if word == [] then [] else [word]) + WordsFrom(s[1..], [])
    else WordsFrom(s[1..], word + [s[0]])
  }

  function Words(s: string): seq<string> { WordsFrom(s, []) }

  /** The words with one blank between them. */
  function Spaced(words: seq<string>): string {
    if words == [] then "" else if |words| == 1 then words[0] else words[0] + " " + Spaced(words[1..])
  }

  lemma SpacedCons(word: string, rest: seq<string>)
    ensures Spaced([word] + rest) == word + if rest == [] then "" else " " + Spaced(rest)
  {
    assert ([word] + rest)[1..] == rest;
    if rest != [] { ConcatAssoc(word, " ", Spaced(rest)); }
  }

  lemma {:induction false} WordGoesOn(s: string, word: string)
    requires word != []
    ensures WordsFrom(s, word) != [] && Spaced(WordsFrom(s, word)) == word + Squeeze(s, false)
    decreases |s|, 1
  {
    if s == [] {
      assert word + [] == word;
    } else if IsSpace(s[0]) {
      WordAfterGap(s[1..]);
      SpacedCons(word, Words(s[1..]));
    } else {
      WordGoesOn(s[1..], word + [s[0]]);
      ConcatAssoc(word, [s[0]], Squeeze(s[1..], false));
    }
  }

  lemma {:induction false} WordAfterGap(s: string)
    ensures Squeeze(s, true) == if Words(s) == [] then "" else " " + Spaced(Words(s))
    decreases |s|, 0
  {
    if s != [] {
      if IsSpace(s[0]) {
        WordAfterGap(s[1..]);
        assert Words(s) == [] + Words(s[1..]) == Words(s[1..]);
      } else {
        assert [] + [s[0]] == [s[0]];
        WordGoesOn(s[1..], [s[0]]);
        ConcatAssoc(" ", [s[0]], Squeeze(s[1..], false));
      }
    }
  }

  /** Normalizing leaves the words of a text, with one blank between them. */
  lemma {:induction false} NormalizedWords(s: string)
    ensures Normalized(s) == Spaced(Words(s))
  {
    if s != [] {
      if IsSpace(s[0]) {
        NormalizedWords(s[1..]);
        assert Words(s) == [] + Words(s[1..]) == Words(s[1..]);
      } else {
        assert [] + [s[0]] == [s[0]];
        WordGoesOn(s[1..], [s[0]]);
      }
    }
  }

  /** An excerpt is all of the normalized text, or its first 117 characters and three dots. */
  lemma ExcerptMeaning(s: string)
    ensures var words := Spaced(Words(s));
      if |words| <= 120 then Excerpt(s) == words
      else |Excerpt(s)| == 120 && Excerpt(s)[..117] == words[..117] && Excerpt(s)[117..] == "..."
  {
    NormalizedWords(s);
  }

  // ---------------------------------------------------------------- the replacement

  /** The marker, what the text was, its length and its excerpt. */
  ghost predicate ReplacedBy(text: string, caption: string, out: string) {
    exists length: string, excerpt: string ::
      && out == "[runtime marker]" + (" " + caption + " compacted; original_chars=" + length
                                      + "; incomplete_excerpt=\"" + excerpt + "\"")
      && ValueOf(length) == |text| && |excerpt| <= 120
      && (|Spaced(Words(text))| <= 120 ==> excerpt == Spaced(Words(text)))
      && (|Spaced(Words(text))| > 120 ==>
            |excerpt| == 120 && excerpt[..117] == Spaced(Words(text))[..117] && excerpt[117..] == "...")
  }

  /** A long unmarked text is replaced so, and any other stays. */
  lemma ReplacementMeaning(text: string, caption: string, limit: nat)
    ensures if "[runtime marker]" <= text || |text| <= limit then CompactText(text, caption, limit) == text
            else ReplacedBy(text, caption, CompactText(text, caption, limit))
  {
    var length, excerpt := Decimal(|text|), Excerpt(text);
    DecimalRead(|text|);
    ExcerptMeaning(text);
    assert MARKER_PREFIX + Replacement(text, caption)
        == "[runtime marker]" + (" " + caption + " compacted; original_chars=" + length + "; incomplete_excerpt=\""
                                 + excerpt + "\"");
  }
}
