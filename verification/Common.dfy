/** Shared result types, sequences of sequences and blank strings. */
module Common {

  datatype Option<+T> = None | Some(value: T)

  /** A thrown exception is an Err carrying its message. */
  datatype Result<+T> = Ok(value: T) | Err(message: string)

  /** The characters matched by \s, which are those trim() removes. */
  predicate IsSpace(c: char) {
    || '\t' <= c <= '\r' || c == ' ' || c == '\U{00A0}' || c == '\U{1680}' || '\U{2000}' <= c <= '\U{200A}'
    || c == '\U{2028}' || c == '\U{2029}' || c == '\U{202F}' || c == '\U{205F}' || c == '\U{3000}' || c == '\U{FEFF}'
  }

  /** The blanks one by one, and their neighbours that are none. */
  lemma Blanks()
    ensures IsSpace('\t') && IsSpace('\n') && IsSpace(0xB as char) && IsSpace(0xC as char)
    ensures IsSpace('\r') && IsSpace(' ')
    ensures !IsSpace(0x8 as char) && !IsSpace(0xE as char) && !IsSpace('!') && !IsSpace(0x1F as char)
    ensures IsSpace('\U{00A0}') && IsSpace('\U{1680}') && !IsSpace('\U{009F}') && !IsSpace('\U{00A1}')
    ensures IsSpace('\U{2000}') && IsSpace('\U{2005}') && IsSpace('\U{200A}')
    ensures !IsSpace('\U{1FFF}') && !IsSpace('\U{200B}')
    ensures IsSpace('\U{2028}') && IsSpace('\U{2029}') && !IsSpace('\U{2027}') && !IsSpace('\U{202A}')
    ensures IsSpace('\U{202F}') && IsSpace('\U{205F}') && IsSpace('\U{3000}') && IsSpace('\U{FEFF}')
    ensures !IsSpace('a') && !IsSpace('0') && !IsSpace('\U{202E}') && !IsSpace('\U{2060}') && !IsSpace('\U{3001}')
  {
  }

  /** Nothing is left of the string after trim(). */
  predicate Blank(s: string) { forall i :: 0 <= i < |s| ==> IsSpace(s[i]) }

  function Flatten<T>(groups: seq<seq<T>>): (flat: seq<T>) {
    if groups == [] then [] else groups[0] + Flatten(groups[1..])
  }

  lemma {:induction false} FlattenAppend<T>(xs: seq<seq<T>>, ys: seq<seq<T>>)
    ensures Flatten(xs + ys) == Flatten(xs) + Flatten(ys)
  {
    if xs == [] {
      assert xs + ys == ys;
    } else {
      assert (xs + ys)[1..] == xs[1..] + ys;
      FlattenAppend(xs[1..], ys);
    }
  }

  lemma ConcatAssoc<T>(a: seq<T>, b: seq<T>, c: seq<T>)
    ensures a + b + c == a + (b + c)
  {
  }
}
