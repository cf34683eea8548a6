/** Shortening one text: the marker, the length limits and the excerpt. */
module Excerpts {
  import opened Common

  const MARKER_PREFIX := "[runtime marker]"
  const MAX_INLINE_CHARS: nat := 240
  const MAX_TOOL_RESULT_CHARS: nat := 320

  function Decimal(n: nat): (s: string)
    ensures s != []
  {
    var digit := [('0' as int + n % 10) as char];
    if n < 10 then digit else Decimal(n / 10) + digit
  }

  /** Whitespace runs become one blank, and none is left at either end.  `gap` says that the text
      before ends in whitespace still to be written. */
  function Squeeze(s: string, gap: bool): string {
    if s == [] then []
    else if IsSpace(s[0]) then Squeeze(s[1..], true)
    else (if gap then " " else "") + [s[0]] + Squeeze(s[1..], false)
  }

  function Normalized(s: string): (r: string)
    ensures |r| <= |s|
  {
    if s == [] then []
    else if IsSpace(s[0]) then Normalized(s[1..])
    else SqueezeShrinks(s[1..]); [s[0]] + Squeeze(s[1..], false)
  }

  lemma SqueezeShrinks(s: string)
    ensures |Squeeze(s, false)| <= |s| && |Squeeze(s, true)| <= |s| + 1
  {
    if s != [] { SqueezeShrinks(s[1..]); }
  }

  function Excerpt(s: string): (r: string)
    ensures |r| <= 120
  {
    var normalized := Normalized(s);
    if |normalized| <= 120 then normalized else normalized[..117] + "..."
  }

  predicate Marked(text: string) { MARKER_PREFIX <= text }

  function Replacement(text: string, caption: string): string {
    " " + caption + " compacted; original_chars=" + Decimal(|text|) + "; incomplete_excerpt=\"" + Excerpt(text) + "\""
  }

  /** compactText. */
  function CompactText(text: string, caption: string, limit: nat): string {
    if Marked(text) || |text| <= limit then text else MARKER_PREFIX + Replacement(text, caption)
  }

  /** Only a long text that does not already start with the marker is replaced, and what replaces
      it is never replaced again, under whatever caption and limit. */
  lemma CompactTextOnce(text: string, caption: string, limit: nat, other: string, more: nat)
    ensures CompactText(text, caption, limit) == text <==> Marked(text) || |text| <= limit
    ensures CompactText(CompactText(text, caption, limit), other, more)
            == if Marked(text) || |text| <= limit then CompactText(text, other, more)
               else CompactText(text, caption, limit)
  {
    PrefixOf(MARKER_PREFIX, Replacement(text, caption));
  }

  lemma PrefixOf(a: string, b: string)
    ensures a <= a + b
  {
  }
}
