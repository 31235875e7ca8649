// Word splitting for the animated headings: the text is split at every single
// space character and each word is rendered as its own animated span.
module AnimatedText {

  const Space: char := ' '

  /** Number of occurrences of the space character in `s`. */
  function SpaceCount(s: string): nat
  {
    if |s| == 0 then 0 else (if s[0] == Space then 1 else 0) + SpaceCount(s[1..])
  }

  /** `text.split(' ')`: the maximal runs between spaces, an empty word on each
      side of a space at the edge or between two adjacent spaces. */
  function Split(text: string): (words: seq<string>)
    ensures |words| >= 1
  {
    if |text| == 0 then [""]
    else
      var rest := Split(text[1..]);
      if text[0] == Space then [""] + rest
      else [[text[0]] + rest[0]] + rest[1..]
  }

  /** `words.join(' ')`. */
  function Join(words: seq<string>): string
  {
    if |words| == 0 then ""
    else if |words| == 1 then words[0]
    else words[0] + [Space] + Join(words[1..])
  }

  predicate NoSpace(w: string)
  {
    forall k :: 0 <= k < |w| ==> w[k] != Space
  }

  /** Joining the words with a single space gives back the text exactly. */
  lemma {:induction false} JoinSplit(text: string)
    ensures Join(Split(text)) == text
  {
    if |text| > 0 {
      var rest := Split(text[1..]);
      JoinSplit(text[1..]);
      if text[0] == Space {
        assert Split(text) == [""] + rest;
        if |rest| == 1 {
          assert Join(Split(text)) == "" + [Space] + rest[0];
        } else {
          assert Join(Split(text)) == "" + [Space] + Join(rest);
        }
      } else {
        assert Split(text) == [[text[0]] + rest[0]] + rest[1..];
        if |rest| == 1 {
          assert Join(Split(text)) == [text[0]] + rest[0];
        } else {
          assert (Split(text))[1..] == rest[1..];
          assert Join(rest) == rest[0] + [Space] + Join(rest[1..]);
          assert Join(Split(text)) == [text[0]] + rest[0] + [Space] + Join(rest[1..]);
        }
      }
    }
  }

  /** There is one word more than there are spaces; the empty text has one
      (empty) word. */
  lemma {:induction false} SplitCount(text: string)
    ensures |Split(text)| == SpaceCount(text) + 1
  {
    if |text| > 0 {
      SplitCount(text[1..]);
    }
  }

  /** No word contains a space. */
  lemma {:induction false} SplitWordsHaveNoSpace(text: string)
    ensures forall i :: 0 <= i < |Split(text)| ==> NoSpace(Split(text)[i])
  {
    if |text| > 0 {
      SplitWordsHaveNoSpace(text[1..]);
      var rest := Split(text[1..]);
      if text[0] != Space {
        assert NoSpace(rest[0]);
        assert NoSpace([text[0]] + rest[0]);
      }
    }
  }

  /** The other round trip: a non-empty list of space-free words is recovered
      from its join. */
  lemma {:induction false} SplitJoin(words: seq<string>)
    requires |words| >= 1
    requires forall i :: 0 <= i < |words| ==> NoSpace(words[i])
    ensures Split(Join(words)) == words
  {
    if |words| == 1 {
      SplitOfWord(words[0]);
    } else {
      SplitJoin(words[1..]);
      SplitPrefixed(words[0], Join(words[1..]));
    }
  }

  lemma {:induction false} SplitOfWord(w: string)
    requires NoSpace(w)
    ensures Split(w) == [w]
  {
    if |w| > 0 {
      SplitOfWord(w[1..]);
      assert [w[0]] + w[1..] == w;
    }
  }

  lemma {:induction false} SplitPrefixed(w: string, tail: string)
    requires NoSpace(w)
    ensures Split(w + [Space] + tail) == [w] + Split(tail)
  {
    if |w| == 0 {
      assert w + [Space] + tail == [Space] + tail;
      assert ([Space] + tail)[1..] == tail;
    } else {
      SplitPrefixed(w[1..], tail);
      assert (w + [Space] + tail)[1..] == w[1..] + [Space] + tail;
      assert [w[0]] + w[1..] == w;
    }
  }

  /** One rendered span: React key `index` and the word it shows. */
  datatype WordSpan = WordSpan(key: nat, word: string)

  /** `words.map((word, index) => <span key={index}>{word}</span>)`. */
  function RenderSpans(text: string): (spans: seq<WordSpan>)
    ensures |spans| == SpaceCount(text) + 1
    ensures forall i :: 0 <= i < |spans| ==> spans[i].key == i && NoSpace(spans[i].word)
    ensures |spans| == |Split(text)| &&
            forall i :: 0 <= i < |spans| ==> spans[i].word == Split(text)[i]
    ensures Join(seq(|spans|, i requires 0 <= i < |spans| => spans[i].word)) == text
  {
    var words := Split(text);
    SplitCount(text);
    SplitWordsHaveNoSpace(text);
    JoinSplit(text);
    var spans := seq(|words|, i requires 0 <= i < |words| => WordSpan(i, words[i]));
    assert seq(|spans|, i requires 0 <= i < |spans| => spans[i].word) == words;
    spans
  }
}
