/** The part of std::istream that the shader declaration scan relies on:
    formatted extraction `in >> word` of white-space separated words from a
    std::stringstream, together with the stream's eof and fail flags. */
module Stream {
  import opened Common

  /** The characters the classic "C" locale classifies as white space. */
  predicate IsSpace(c: char) {
    c == ' ' || c == '\t' || c == '\n' || c == '\U{0B}' || c == '\U{0C}' || c == '\r'
  }

  /** Index of the first non-space character at or after `pos` (|s| if there is none). */
  function SkipSpace(s: string, pos: nat): (r: nat)
    requires pos <= |s|
    ensures pos <= r <= |s|
    ensures forall k :: pos <= k < r ==> IsSpace(s[k])
    ensures r == |s| || !IsSpace(s[r])
    decreases |s| - pos
  {
    if pos == |s| || !IsSpace(s[pos]) then pos else SkipSpace(s, pos + 1)
  }

  /** Index just past the run of non-space characters that starts at `pos`. */
  function WordEnd(s: string, pos: nat): (r: nat)
    requires pos <= |s|
    ensures pos <= r <= |s|
    ensures forall k :: pos <= k < r ==> !IsSpace(s[k])
    ensures r == |s| || IsSpace(s[r])
    decreases |s| - pos
  {
    if pos == |s| || IsSpace(s[pos]) then pos else WordEnd(s, pos + 1)
  }

  /** A word taken out of the text and the position just past it. */
  datatype Word = Word(text: string, end: nat)

  /** One formatted extraction from position `pos`: skip white space, then take the
      longest run of non-space characters. None when only white space is left. */
  function Extract(s: string, pos: nat): (r: Option<Word>)
    requires pos <= |s|
    ensures r.None? <==> forall k :: pos <= k < |s| ==> IsSpace(s[k])
    ensures r.Some? ==> pos < r.value.end <= |s| && r.value.text != []
    ensures r.Some? ==> forall k :: 0 <= k < |r.value.text| ==> !IsSpace(r.value.text[k])
    ensures r.Some? ==> !IsSpace(s[r.value.end - 1])
    ensures r.Some? ==> r.value.end == |s| || IsSpace(s[r.value.end])
    // The word starts where the white space after `pos` ends.
    ensures r.Some? ==> SkipSpace(s, pos) < r.value.end && r.value.text == s[SkipSpace(s, pos)..r.value.end]
  {
    var p := SkipSpace(s, pos);
    if p == |s| then None
    else
      var q := WordEnd(s, p);
      Some(Word(s[p..q], q))
  }

  /** The words that successive extractions starting at `pos` yield. */
  function TokensFrom(s: string, pos: nat): seq<string>
    requires pos <= |s|
    decreases |s| - pos
  {
    match Extract(s, pos)
    case None => []
    case Some(w) => [w.text] + TokensFrom(s, w.end)
  }

  /** The white-space separated words of `s`, in order. */
  function Tokens(s: string): seq<string> {
    TokensFrom(s, 0)
  }

  /** Whether the last character of `s` is white space: only then does extracting
      the last word leave the stream without its eof flag. */
  predicate EndsWithSpace(s: string) {
    |s| > 0 && IsSpace(s[|s| - 1])
  }

  /** Every word is non-empty and holds no white space. */
  lemma {:induction false} TokensAreWords(s: string, pos: nat)
    requires pos <= |s|
    ensures forall t :: t in TokensFrom(s, pos) ==> t != [] && forall k :: 0 <= k < |t| ==> !IsSpace(t[k])
    decreases |s| - pos
  {
    match Extract(s, pos)
    case None =>
    case Some(w) => TokensAreWords(s, w.end);
  }

  /** After a word is extracted, end-of-text is reached exactly when no word follows
      and the text does not end in white space. */
  lemma AtEndAfterWord(s: string, w: Word)
    requires w.end <= |s|
    requires 0 < w.end && !IsSpace(s[w.end - 1]) && (w.end == |s| || IsSpace(s[w.end]))
    ensures w.end == |s| <==> (TokensFrom(s, w.end) == [] && !EndsWithSpace(s))
  {
  }

  /** A std::stringstream opened for reading, with its read position and the eof
      and fail bits of its state. Words are read with `Read`; the ghost field
      `consumed` counts the words extracted so far. */
  class StringStream {
    const text: string
    var pos: nat
    var eof: bool
    var fail: bool
    ghost var consumed: nat

    /** All the words of the text, in the order extractions return them. */
    ghost function Words(): seq<string> {
      Tokens(text)
    }

    ghost predicate Valid()
      reads this
    {
      && pos <= |text|
      && (fail ==> eof)
      && consumed <= |Words()|
      && (eof ==> pos == |text| && consumed == |Words()| && (fail || !EndsWithSpace(text)))
      && (!eof ==> TokensFrom(text, pos) == Words()[consumed..])
    }

    /** good(): neither eof nor fail is set. */
    predicate Good()
      reads this
    {
      !eof && !fail
    }

    constructor (s: string)
      ensures Valid() && Good()
      ensures text == s && pos == 0 && consumed == 0
    {
      text := s;
      pos := 0;
      eof, fail := false, false;
      consumed := 0;
    }

    /** `*this >> target`. On success the next word is returned and eof is set when
        the word ended the text. On failure (the stream was not good, or only white
        space was left) fail and eof are set and `target` is returned unchanged:
        the string is erased only after the sentry succeeds. */
    method Read(target: string) returns (word: string)
      requires Valid()
      modifies this
      ensures Valid() && pos >= old(pos)
      ensures old(Good()) && old(pos) < |text| ==> pos > old(pos)
      ensures !eof ==> pos < |text| && (consumed < |Words()| || EndsWithSpace(text))
      ensures old(Good()) && old(consumed) < |Words()| ==>
        word == Words()[old(consumed)] && consumed == old(consumed) + 1 && !fail
      ensures !(old(Good()) && old(consumed) < |Words()|) ==>
        word == target && consumed == old(consumed) && eof && fail
    {
      if !Good() {
        fail := true;
        word := target;
        return;
      }
      match Extract(text, pos)
      case None =>
        pos, eof, fail := |text|, true, true;
        word := target;
      case Some(w) =>
        AtEndAfterWord(text, w);
        ghost var ws := Words();
        assert TokensFrom(text, pos) == [w.text] + TokensFrom(text, w.end);
        assert ws[consumed..] == [ws[consumed]] + ws[consumed + 1..];
        pos, eof := w.end, w.end == |text|;
        word := w.text;
        consumed := consumed + 1;
    }
  }
}
