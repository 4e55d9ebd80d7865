/**
 * Word-list operations the scripts share: removing stop words from a
 * whitespace-split text and joining the rest back with single spaces
 * (New_Try.py line 94, Test1.py line 102), and the generator sums that
 * count and measure the words.
 */
module Tokens {
  import opened PyStr

  /** `a` can be obtained from `b` by deleting elements: the order of `a` is the order in `b`. */
  predicate IsSubsequence(a: seq<string>, b: seq<string>)
    decreases |b|
  {
    if a == [] then true
    else if b == [] then false
    else if a[0] == b[0] then IsSubsequence(a[1..], b[1..])
    else IsSubsequence(a, b[1..])
  }

  /**
   * `[w for w in words if w not in stop]`: the membership test is exact-case,
   * and every occurrence of a word that is not a stop word is kept.
   */
  function RemoveStopWords(words: seq<string>, stop: set<string>): (kept: seq<string>)
    ensures forall w :: w in kept <==> w in words && w !in stop
    ensures forall w :: multiset(kept)[w] == if w in stop then 0 else multiset(words)[w]
    ensures IsSubsequence(kept, words)
  {
    if words == [] then []
    else
      assert words == [words[0]] + words[1..];
      if words[0] in stop then RemoveStopWords(words[1..], stop)
      else [words[0]] + RemoveStopWords(words[1..], stop)
  }

  /**
   * `' '.join(word for word in text.split() if word not in stop)`. Splitting
   * the cleaned text again gives back exactly the surviving words: every
   * occurrence of each non-stop word, in the original order.
   */
  function CleanText(text: string, stop: set<string>): (cleaned: string)
    ensures Split(cleaned) == RemoveStopWords(Split(text), stop)
  {
    SplitJoin(RemoveStopWords(Split(text), stop));
    Join(RemoveStopWords(Split(text), stop))
  }

  /** `sum(1 for w in words if w in s)`. */
  function CountIn(words: seq<string>, s: set<string>): (n: nat)
    ensures n <= |words|
    ensures n == 0 <==> forall w :: w in words ==> w !in s
    ensures n == |words| <==> forall w :: w in words ==> w in s
  {
    if words == [] then 0
    else (if words[0] in s then 1 else 0) + CountIn(words[1..], s)
  }

  /** A word cannot be counted on both sides when the two sets share no word. */
  lemma {:induction false} CountInDisjoint(words: seq<string>, s: set<string>, t: set<string>)
    requires s !! t
    ensures CountIn(words, s) + CountIn(words, t) <= |words|
  {
    if words != [] {
      CountInDisjoint(words[1..], s, t);
    }
  }

  /** No token is the empty string. */
  predicate NonEmptyWords(words: seq<string>)
  {
    forall w :: w in words ==> w != []
  }

  /** `sum(len(w) for w in words)`. */
  function TotalLength(words: seq<string>): (n: nat)
    ensures NonEmptyWords(words) ==> n >= |words|
  {
    if words == [] then 0
    else
      assert words[0] in words && forall w :: w in words[1..] ==> w in words;
      |words[0]| + TotalLength(words[1..])
  }

  /** `sum(len(word_tokenize(s)) for s in sentences)`, with the tokenizer passed in. */
  function TokenTotal(sentences: seq<string>, tokenize: string -> seq<string>): nat
  {
    if sentences == [] then 0 else |tokenize(sentences[0])| + TokenTotal(sentences[1..], tokenize)
  }
}
